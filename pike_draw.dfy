/** The drawing helpers of pike_draw.py: `color_code`, which turns an RGB
    triple into a PDF colour operator, and the page methods `draw_line` and
    `draw_rect`, which validate their style parameters, assemble a
    content-stream fragment and append it once to the page. */
module PikeDraw {
  import opened ContentTokens

  datatype Option<T> = None | Some(value: T)

  /** The `ValueError`s the helpers raise, told apart by their messages,
      and the `IndexError` of a point with fewer than two coordinates. */
  datatype DrawError =
    | InvalidColor
    | NegativeBorderWidth
    | InvalidJoinStyle
    | InvalidCapStyle
    | MissingCoordinate

  datatype Result<T> = Ok(value: T) | Err(error: DrawError)

  /** How a number is written into the stream (Python's `str` of the value).
      It is left abstract: every member takes it as a parameter. */
  type Formatter = real -> string

  /** A number's text reads back as exactly one token, and that token is not
      an operator mnemonic. */
  predicate IsNumeral(s: string) {
    IsWord(s) && !IsOperator(s)
  }

  ghost predicate ValidFormatter(fmt: Formatter) {
    forall x {:trigger IsNumeral(fmt(x))} :: IsNumeral(fmt(x))
  }

  /** The colour used when no stroke colour is given. */
  const Black: seq<real> := [0.0, 0.0, 0.0]

  /** Three components, each in the closed range [0, 1]. */
  predicate ValidColor(c: seq<real>) {
    |c| == 3 && forall i :: 0 <= i < |c| ==> 0.0 <= c[i] <= 1.0
  }

  // ---------------------------------------------------------------------
  // color_code
  // ---------------------------------------------------------------------

  /** Python's `min` of a non-empty list. */
  function SeqMin(s: seq<real>): (m: real)
    requires |s| > 0
    ensures forall i :: 0 <= i < |s| ==> m <= s[i]
    ensures exists i :: 0 <= i < |s| && s[i] == m
  {
    if |s| == 1 then s[0]
    else
      var rest := SeqMin(s[1..]);
      if s[0] <= rest then s[0] else rest
  }

  /** Python's `max` of a non-empty list. */
  function SeqMax(s: seq<real>): (m: real)
    requires |s| > 0
    ensures forall i :: 0 <= i < |s| ==> s[i] <= m
    ensures exists i :: 0 <= i < |s| && s[i] == m
  {
    if |s| == 1 then s[0]
    else
      var rest := SeqMax(s[1..]);
      if s[0] >= rest then s[0] else rest
  }

  /** The colour operator a mode flag selects: stroke for "c", fill for
      every other flag. */
  function ColorOperator(f: string): (op: string)
    ensures op == "RG" <==> f == "c"
    ensures op == "rg" <==> f != "c"
  {
    if f == "c" then "RG" else "rg"
  }

  /** The guard of `color_code`, written with Python's `min` and `max`. */
  predicate RejectedColor(c: seq<real>) {
    |c| != 3 || SeqMin(c) < 0.0 || SeqMax(c) > 1.0
  }

  /** The min/max guard rejects exactly the colours that are not three
      components in [0, 1]: no component is clamped or ignored. */
  lemma RejectedColorMeans(c: seq<real>)
    ensures RejectedColor(c) <==> !ValidColor(c)
  {
    if |c| == 3 && !ValidColor(c) {
      var i :| 0 <= i < 3 && !(0.0 <= c[i] <= 1.0);
      assert SeqMin(c) <= c[i] <= SeqMax(c);
    }
  }

  /** `color_code(c, f)`: rejects anything but three components in [0, 1]
      (the guard RejectedColor, see RejectedColorMeans), otherwise writes
      them space-separated followed by the stroke or fill colour operator
      and a trailing space. */
  function ColorCode(c: seq<real>, f: string, fmt: Formatter): (r: Result<string>)
    ensures r.Ok? <==> ValidColor(c)
    ensures r.Err? ==> r.error == InvalidColor
    ensures r.Ok? ==> |r.value| > 0 && r.value[|r.value| - 1] == ' '
  {
    if !ValidColor(c) then Err(InvalidColor)
    else if f == "c" then Ok(fmt(c[0]) + " " + fmt(c[1]) + " " + fmt(c[2]) + " RG ")
    else Ok(fmt(c[0]) + " " + fmt(c[1]) + " " + fmt(c[2]) + " rg ")
  }

  /** Under a valid formatter every number is one operand token. */
  lemma NumeralOf(fmt: Formatter, x: real)
    requires ValidFormatter(fmt)
    ensures IsNumeral(fmt(x))
  {
  }

  /** Under a valid formatter no number reads as an operator. */
  lemma OperandOf(fmt: Formatter, x: real)
    requires ValidFormatter(fmt)
    ensures !IsOperator(fmt(x))
  {
    NumeralOf(fmt, x);
  }

  /** The tokens a colour operator with operands `c` reads back as. */
  function ColorWords(fmt: Formatter, c: seq<real>, op: string): seq<string>
    requires |c| == 3
  {
    [fmt(c[0]), fmt(c[1]), fmt(c[2]), op]
  }

  lemma AppendWord(s: string, w: string)
    requires IsWord(w)
    ensures Tokenize(s + " " + w) == Tokenize(s) + [w]
  {
    TokenizeAppend(s, " " + w);
    assert s + " " + w == s + (" " + w);
    assert (" " + w)[1..] == w;
    TokenizeWord(w);
  }

  lemma AppendBlank(s: string, b: string)
    requires IsBlank(b)
    ensures Tokenize(s + b) == Tokenize(s)
  {
    TokenizeBlank(b);
    if b != [] {
      TokenizeAppend(s, b);
    } else {
      assert s + b == s;
    }
  }

  /** A valid colour reads back as its three components, verbatim and in
      order, followed by the operator its flag selects. */
  lemma ColorCodeTokens(c: seq<real>, f: string, fmt: Formatter)
    requires ValidFormatter(fmt) && ValidColor(c)
    ensures Tokenize(ColorCode(c, f, fmt).value) == ColorWords(fmt, c, ColorOperator(f))
  {
    var op := ColorOperator(f);
    var head := fmt(c[0]) + " " + fmt(c[1]) + " " + fmt(c[2]);
    NumeralOf(fmt, c[0]);
    NumeralOf(fmt, c[1]);
    NumeralOf(fmt, c[2]);
    TokenizeWord(fmt(c[0]));
    AppendWord(fmt(c[0]), fmt(c[1]));
    AppendWord(fmt(c[0]) + " " + fmt(c[1]), fmt(c[2]));
    assert ColorCode(c, f, fmt).value == (head + " " + op) + " ";
    AppendWord(head, op);
    AppendBlank(head + " " + op, " ");
  }

  // ---------------------------------------------------------------------
  // Shared parts of draw_line and draw_rect
  // ---------------------------------------------------------------------

  /** The three style checks, in the order both methods make them. */
  function CheckStyle(borderWidth: real, join: int, cap: int): (r: Result<()>)
    ensures r.Ok? <==> 0.0 <= borderWidth && 0 <= join <= 2 && 0 <= cap <= 2
    ensures borderWidth < 0.0 ==> r == Err(NegativeBorderWidth)
    ensures 0.0 <= borderWidth && !(0 <= join <= 2) ==> r == Err(InvalidJoinStyle)
    ensures 0.0 <= borderWidth && 0 <= join <= 2 && !(0 <= cap <= 2) ==> r == Err(InvalidCapStyle)
  {
    if borderWidth < 0.0 then Err(NegativeBorderWidth)
    else if join !in {0, 1, 2} then Err(InvalidJoinStyle)
    else if cap !in {0, 1, 2} then Err(InvalidCapStyle)
    else Ok(())
  }

  /** The dash line: the pattern, unchecked, followed by `d`, or a single
      blank when no pattern is given. */
  function DashLine(dash: Option<string>): string {
    match dash
    case Some(p) => p + " d"
    case None => " "
  }

  /** What the dash line reads back as. */
  function DashWords(dash: Option<string>): seq<string> {
    match dash
    case Some(p) => Tokenize(p) + ["d"]
    case None => []
  }

  /** The operator mnemonics inside the pattern text itself, which the
      helpers pass through unchecked. */
  function PatternOperators(dash: Option<string>): seq<string> {
    match dash
    case Some(p) => OperatorsOf(Tokenize(p))
    case None => []
  }

  /** What the dash line adds to the operator sequence: the pattern's own
      mnemonics then `d`, or nothing. */
  function DashOperators(dash: Option<string>): seq<string> {
    if dash.Some? then PatternOperators(dash) + ["d"] else []
  }

  /** The pattern text holds no operator mnemonic. */
  predicate PlainDash(dash: Option<string>) {
    PatternOperators(dash) == []
  }

  lemma DashLineTokens(dash: Option<string>)
    ensures Tokenize(DashLine(dash)) == DashWords(dash)
    ensures OperatorsOf(DashWords(dash)) == DashOperators(dash)
    ensures PlainDash(dash) ==> DashOperators(dash) == (if dash.Some? then ["d"] else [])
  {
    match dash
    case Some(p) =>
      assert IsWord("d");
      AppendWord(p, "d");
      assert p + " d" == p + " " + "d";
      OperatorsOfAppend(Tokenize(p), ["d"]);
    case None =>
      TokenizeBlank(" ");
  }

  /** "x y" followed by an operator, as the path lines are written. */
  function PointOp(fmt: Formatter, x: real, y: real, op: string): string {
    fmt(x) + " " + fmt(y) + " " + op
  }

  /** "v" followed by an operator, as the style lines are written. */
  function ValueOp(fmt: Formatter, v: real, op: string): string {
    fmt(v) + " " + op
  }

  lemma PointOpTokens(fmt: Formatter, x: real, y: real, op: string)
    requires ValidFormatter(fmt) && IsWord(op)
    ensures Tokenize(PointOp(fmt, x, y, op)) == [fmt(x), fmt(y), op]
  {
    NumeralOf(fmt, x);
    NumeralOf(fmt, y);
    TokenizeWord(fmt(x));
    AppendWord(fmt(x), fmt(y));
    AppendWord(fmt(x) + " " + fmt(y), op);
  }

  lemma ValueOpTokens(fmt: Formatter, v: real, op: string)
    requires ValidFormatter(fmt) && IsWord(op)
    ensures Tokenize(ValueOp(fmt, v, op)) == [fmt(v), op]
  {
    NumeralOf(fmt, v);
    TokenizeWord(fmt(v));
    AppendWord(fmt(v), op);
  }

  /** An operand in front drops out of the operators. */
  lemma SkipOperand(t: string, rest: seq<string>)
    requires !IsOperator(t)
    ensures OperatorsOf([t] + rest) == OperatorsOf(rest)
  {
    assert ([t] + rest)[1..] == rest;
  }

  /** Three operands then an operator: the operands drop out. */
  lemma ThreeOperandsThen(a: string, b: string, c: string, op: string, rest: seq<string>)
    requires !IsOperator(a) && !IsOperator(b) && !IsOperator(c) && IsOperator(op)
    ensures OperatorsOf([a, b, c, op] + rest) == [op] + OperatorsOf(rest)
  {
    var tail := [op] + rest;
    assert tail[1..] == rest;
    SkipOperand(c, tail);
    SkipOperand(b, [c] + tail);
    SkipOperand(a, [b] + ([c] + tail));
    assert [a, b, c, op] + rest == [a] + ([b] + ([c] + tail));
  }

  /** A colour's words keep only their colour operator. */
  lemma ColorWordsOperators(fmt: Formatter, c: seq<real>, op: string, rest: seq<string>)
    requires ValidFormatter(fmt) && |c| == 3 && IsOperator(op)
    ensures OperatorsOf(ColorWords(fmt, c, op) + rest) == [op] + OperatorsOf(rest)
  {
    OperandOf(fmt, c[0]);
    OperandOf(fmt, c[1]);
    OperandOf(fmt, c[2]);
    ThreeOperandsThen(fmt(c[0]), fmt(c[1]), fmt(c[2]), op, rest);
  }

  /** An operator on its own is kept. */
  lemma OneOperator(op: string)
    requires IsOperator(op)
    ensures OperatorsOf([op]) == [op]
  {
    assert [op][1..] == [];
  }

  /** "v op": the operand drops out. */
  lemma ValueOperators(fmt: Formatter, v: real, op: string)
    requires ValidFormatter(fmt) && IsOperator(op)
    ensures OperatorsOf([fmt(v), op]) == [op]
  {
    OperandOf(fmt, v);
    SkipOperand(fmt(v), [op]);
    OneOperator(op);
    assert [fmt(v)] + [op] == [fmt(v), op];
  }

  /** "x y op": both operands drop out. */
  lemma PointOperators(fmt: Formatter, x: real, y: real, op: string)
    requires ValidFormatter(fmt) && IsOperator(op)
    ensures OperatorsOf([fmt(x), fmt(y), op]) == [op]
  {
    OperandOf(fmt, x);
    SkipOperand(fmt(x), [fmt(y), op]);
    ValueOperators(fmt, y, op);
    assert [fmt(x)] + [fmt(y), op] == [fmt(x), fmt(y), op];
  }

  // ---------------------------------------------------------------------
  // draw_line
  // ---------------------------------------------------------------------

  /** The stroke colour `draw_line` uses: the given one, or black. */
  function StrokeOrBlack(stroke: Option<seq<real>>): seq<real> {
    match stroke
    case Some(c) => c
    case None => Black
  }

  /** The template of `draw_line`, one entry per line, around the dash line
      and the colour line. */
  function LineLines(fmt: Formatter, start: seq<real>, end: seq<real>, borderWidth: real,
                     join: int, cap: int, dashLine: string, colorLine: string): seq<string>
    requires |start| >= 2 && |end| >= 2
  {
    ["q"]
      + [PointOp(fmt, start[0], start[1], "m")]
      + [PointOp(fmt, end[0], end[1], "l")]
      + [ValueOp(fmt, borderWidth, "w")]
      + ["h"]
      + [ValueOp(fmt, join as real, "j")]
      + [ValueOp(fmt, cap as real, "J")]
      + [dashLine]
      + [colorLine]
      + ["Q"]
  }

  /** The fragment `draw_line` appends, one entry per line of its template,
      or the error it raises before appending anything. */
  function LineFragment(fmt: Formatter, start: seq<real>, end: seq<real>, borderWidth: real,
                        stroke: Option<seq<real>>, dash: Option<string>,
                        join: int, cap: int): (r: Result<seq<string>>)
    ensures r.Ok? <==>
      0.0 <= borderWidth && 0 <= join <= 2 && 0 <= cap <= 2 &&
      (stroke.Some? ==> ValidColor(stroke.value)) && |start| >= 2 && |end| >= 2
    ensures CheckStyle(borderWidth, join, cap).Err? ==> r == Err(CheckStyle(borderWidth, join, cap).error)
    ensures CheckStyle(borderWidth, join, cap).Ok? && stroke.Some? && !ValidColor(stroke.value) ==>
      r == Err(InvalidColor)
    ensures (CheckStyle(borderWidth, join, cap).Ok? && (stroke.Some? ==> ValidColor(stroke.value)) &&
             (|start| < 2 || |end| < 2)) ==> r == Err(MissingCoordinate)
    ensures r.Ok? ==> |r.value| == 10
  {
    match CheckStyle(borderWidth, join, cap)
    case Err(e) => Err(e)
    case Ok(_) =>
      var color := ColorCode(StrokeOrBlack(stroke), "c", fmt);
      if color.Err? then Err(color.error)
      else if |start| < 2 || |end| < 2 then Err(MissingCoordinate)
      else Ok(LineLines(fmt, start, end, borderWidth, join, cap, DashLine(dash), color.value + "S"))
  }

  /** What a reader sees in the `draw_line` template, given what it sees in
      the dash line and the colour line. */
  function LineWords(fmt: Formatter, start: seq<real>, end: seq<real>, borderWidth: real,
                     join: int, cap: int, dashWords: seq<string>, colorWords: seq<string>): seq<string>
    requires |start| >= 2 && |end| >= 2
  {
    ["q"]
      + [fmt(start[0]), fmt(start[1]), "m"]
      + [fmt(end[0]), fmt(end[1]), "l"]
      + [fmt(borderWidth), "w"]
      + ["h"]
      + [fmt(join as real), "j"]
      + [fmt(cap as real), "J"]
      + dashWords
      + colorWords
      + ["Q"]
  }

  /** Each template line reads back as its own tokens, in line order. */
  lemma LineLinesTokens(fmt: Formatter, start: seq<real>, end: seq<real>, borderWidth: real,
                        join: int, cap: int, dashLine: string, colorLine: string,
                        dashWords: seq<string>, colorWords: seq<string>)
    requires ValidFormatter(fmt) && |start| >= 2 && |end| >= 2
    requires Tokenize(dashLine) == dashWords && Tokenize(colorLine) == colorWords
    ensures LineTokens(LineLines(fmt, start, end, borderWidth, join, cap, dashLine, colorLine))
         == LineWords(fmt, start, end, borderWidth, join, cap, dashWords, colorWords)
  {
    var p1 := ["q"];
    var p2 := p1 + [PointOp(fmt, start[0], start[1], "m")];
    var p3 := p2 + [PointOp(fmt, end[0], end[1], "l")];
    var p4 := p3 + [ValueOp(fmt, borderWidth, "w")];
    var p5 := p4 + ["h"];
    var p6 := p5 + [ValueOp(fmt, join as real, "j")];
    var p7 := p6 + [ValueOp(fmt, cap as real, "J")];
    var p8 := p7 + [dashLine];
    var p9 := p8 + [colorLine];
    assert IsWord("q") && IsWord("m") && IsWord("l") && IsWord("w") && IsWord("h");
    assert IsWord("j") && IsWord("J") && IsWord("Q");
    TokenizeWord("q");
    TokenizeWord("h");
    TokenizeWord("Q");
    PointOpTokens(fmt, start[0], start[1], "m");
    PointOpTokens(fmt, end[0], end[1], "l");
    ValueOpTokens(fmt, borderWidth, "w");
    ValueOpTokens(fmt, join as real, "j");
    ValueOpTokens(fmt, cap as real, "J");
    LineTokensSnoc([], "q");
    assert [] + ["q"] == p1;
    LineTokensSnoc(p1, PointOp(fmt, start[0], start[1], "m"));
    LineTokensSnoc(p2, PointOp(fmt, end[0], end[1], "l"));
    LineTokensSnoc(p3, ValueOp(fmt, borderWidth, "w"));
    LineTokensSnoc(p4, "h");
    LineTokensSnoc(p5, ValueOp(fmt, join as real, "j"));
    LineTokensSnoc(p6, ValueOp(fmt, cap as real, "J"));
    LineTokensSnoc(p7, dashLine);
    LineTokensSnoc(p8, colorLine);
    LineTokensSnoc(p9, "Q");
  }

  /** The operators of the `draw_line` template: save, move, line, width,
      close, join, cap, then those of the dash and colour lines, restore. */
  lemma LineWordsOperators(fmt: Formatter, start: seq<real>, end: seq<real>, borderWidth: real,
                           join: int, cap: int, dashWords: seq<string>, colorWords: seq<string>,
                           dashOps: seq<string>, colorOps: seq<string>)
    requires ValidFormatter(fmt) && |start| >= 2 && |end| >= 2
    requires OperatorsOf(dashWords) == dashOps && OperatorsOf(colorWords) == colorOps
    ensures OperatorsOf(LineWords(fmt, start, end, borderWidth, join, cap, dashWords, colorWords))
         == ["q", "m", "l", "w", "h", "j", "J"] + dashOps + colorOps + ["Q"]
  {
    var t1 := ["q"];
    var t2 := t1 + [fmt(start[0]), fmt(start[1]), "m"];
    var t3 := t2 + [fmt(end[0]), fmt(end[1]), "l"];
    var t4 := t3 + [fmt(borderWidth), "w"];
    var t5 := t4 + ["h"];
    var t6 := t5 + [fmt(join as real), "j"];
    var t7 := t6 + [fmt(cap as real), "J"];
    var t8 := t7 + dashWords;
    var t9 := t8 + colorWords;
    assert IsOperator("q") && IsOperator("m") && IsOperator("l") && IsOperator("w") && IsOperator("h");
    assert IsOperator("j") && IsOperator("J") && IsOperator("Q");
    OneOperator("q");
    PointOperators(fmt, start[0], start[1], "m");
    OperatorsOfAppend(t1, [fmt(start[0]), fmt(start[1]), "m"]);
    PointOperators(fmt, end[0], end[1], "l");
    OperatorsOfAppend(t2, [fmt(end[0]), fmt(end[1]), "l"]);
    ValueOperators(fmt, borderWidth, "w");
    OperatorsOfAppend(t3, [fmt(borderWidth), "w"]);
    OneOperator("h");
    OperatorsOfAppend(t4, ["h"]);
    ValueOperators(fmt, join as real, "j");
    OperatorsOfAppend(t5, [fmt(join as real), "j"]);
    ValueOperators(fmt, cap as real, "J");
    OperatorsOfAppend(t6, [fmt(cap as real), "J"]);
    OperatorsOfAppend(t7, dashWords);
    OperatorsOfAppend(t8, colorWords);
    OneOperator("Q");
    OperatorsOfAppend(t9, ["Q"]);
    LineOperatorsJoined(dashOps, colorOps);
  }

  lemma LineOperatorsJoined(dashOps: seq<string>, colorOps: seq<string>)
    ensures ["q"] + ["m"] + ["l"] + ["w"] + ["h"] + ["j"] + ["J"] + dashOps + colorOps + ["Q"]
         == ["q", "m", "l", "w", "h", "j", "J"] + dashOps + colorOps + ["Q"]
  {
    assert ["q"] + ["m"] + ["l"] + ["w"] + ["h"] + ["j"] + ["J"] == ["q", "m", "l", "w", "h", "j", "J"];
  }

  /** The stroke colour followed by `S` reads back as the colour words and `S`. */
  lemma ThenStroke(fmt: Formatter, c: seq<real>)
    requires ValidFormatter(fmt) && ValidColor(c)
    ensures Tokenize(ColorCode(c, "c", fmt).value + "S") == ColorWords(fmt, c, "RG") + ["S"]
  {
    ColorCodeTokens(c, "c", fmt);
    assert IsWord("S");
    TokenizeWord("S");
    TokenizeAppend(ColorCode(c, "c", fmt).value, "S");
  }

  /** Reading back the stream `draw_line` appends gives the tokens of its
      template lines in order: nothing is lost, added or reordered, and the
      colour line reads as the stroke colour (black when none is given),
      `RG` and `S`. */
  lemma LineFragmentTokens(fmt: Formatter, start: seq<real>, end: seq<real>, borderWidth: real,
                           stroke: Option<seq<real>>, dash: Option<string>, join: int, cap: int)
    requires ValidFormatter(fmt)
    requires LineFragment(fmt, start, end, borderWidth, stroke, dash, join, cap).Ok?
    ensures Tokenize(Render(LineFragment(fmt, start, end, borderWidth, stroke, dash, join, cap).value))
         == LineWords(fmt, start, end, borderWidth, join, cap, DashWords(dash),
                      ColorWords(fmt, StrokeOrBlack(stroke), "RG") + ["S"])
  {
    var colorLine := ColorCode(StrokeOrBlack(stroke), "c", fmt).value + "S";
    ThenStroke(fmt, StrokeOrBlack(stroke));
    DashLineTokens(dash);
    LineLinesTokens(fmt, start, end, borderWidth, join, cap, DashLine(dash), colorLine,
                    DashWords(dash), ColorWords(fmt, StrokeOrBlack(stroke), "RG") + ["S"]);
    TokenizeRender(LineLines(fmt, start, end, borderWidth, join, cap, DashLine(dash), colorLine));
  }

  /** The operators of a `draw_line` fragment, in order: save, move, line,
      width, close, join, cap, the dash setting (the pattern's own
      mnemonics then `d`) when a pattern is given, stroke colour, stroke,
      restore. */
  lemma LineFragmentOperators(fmt: Formatter, start: seq<real>, end: seq<real>, borderWidth: real,
                              stroke: Option<seq<real>>, dash: Option<string>, join: int, cap: int)
    requires ValidFormatter(fmt)
    requires LineFragment(fmt, start, end, borderWidth, stroke, dash, join, cap).Ok?
    ensures OperatorsOf(Tokenize(Render(LineFragment(fmt, start, end, borderWidth, stroke, dash, join, cap).value)))
         == ["q", "m", "l", "w", "h", "j", "J"] + DashOperators(dash) + ["RG", "S", "Q"]
  {
    LineFragmentTokens(fmt, start, end, borderWidth, stroke, dash, join, cap);
    DashLineTokens(dash);
    StrokedLineOperators(fmt, start, end, borderWidth, join, cap, StrokeOrBlack(stroke),
                         DashWords(dash), DashOperators(dash));
  }

  /** The operators of the `draw_line` template around any dash line, with
      the colour line stroking in colour `c`. */
  lemma StrokedLineOperators(fmt: Formatter, start: seq<real>, end: seq<real>, borderWidth: real,
                             join: int, cap: int, c: seq<real>, dashWords: seq<string>, dashOps: seq<string>)
    requires ValidFormatter(fmt) && |start| >= 2 && |end| >= 2 && |c| == 3
    requires OperatorsOf(dashWords) == dashOps
    ensures OperatorsOf(LineWords(fmt, start, end, borderWidth, join, cap, dashWords, ColorWords(fmt, c, "RG") + ["S"]))
         == ["q", "m", "l", "w", "h", "j", "J"] + dashOps + ["RG", "S", "Q"]
  {
    assert IsOperator("RG") && IsOperator("S");
    ColorWordsOperators(fmt, c, "RG", ["S"]);
    OneOperator("S");
    LineWordsOperators(fmt, start, end, borderWidth, join, cap, dashWords, ColorWords(fmt, c, "RG") + ["S"],
                       dashOps, ["RG", "S"]);
    StrokeThenRestore(["q", "m", "l", "w", "h", "j", "J"] + dashOps);
  }

  lemma StrokeThenRestore(prefix: seq<string>)
    ensures prefix + ["RG", "S"] + ["Q"] == prefix + ["RG", "S", "Q"]
  {
  }

  /** A line is only ever stroked: a fill colour, fill or fill-and-stroke
      operator appears in a `draw_line` fragment exactly when the dash
      pattern text itself holds it, and so never for a plain pattern. */
  lemma LineNeverFills(fmt: Formatter, start: seq<real>, end: seq<real>, borderWidth: real,
                       stroke: Option<seq<real>>, dash: Option<string>, join: int, cap: int)
    requires ValidFormatter(fmt)
    requires LineFragment(fmt, start, end, borderWidth, stroke, dash, join, cap).Ok?
    ensures var ops := OperatorsOf(Tokenize(Render(LineFragment(fmt, start, end, borderWidth, stroke, dash, join, cap).value)));
      var own := PatternOperators(dash);
      ("rg" in ops <==> "rg" in own) && ("f" in ops <==> "f" in own) && ("B" in ops <==> "B" in own)
    ensures PlainDash(dash) ==>
      var ops := OperatorsOf(Tokenize(Render(LineFragment(fmt, start, end, borderWidth, stroke, dash, join, cap).value)));
      "rg" !in ops && "f" !in ops && "B" !in ops
  {
    LineFragmentOperators(fmt, start, end, borderWidth, stroke, dash, join, cap);
    StrokeOperatorsOnly(PatternOperators(dash), DashOperators(dash));
  }

  /** Around the dash setting, the `draw_line` operators hold no fill
      operator, and `d` is none either. */
  lemma StrokeOperatorsOnly(own: seq<string>, dashOps: seq<string>)
    requires dashOps == own + ["d"] || (dashOps == [] && own == [])
    ensures var ops := ["q", "m", "l", "w", "h", "j", "J"] + dashOps + ["RG", "S", "Q"];
      ("rg" in ops <==> "rg" in own) && ("f" in ops <==> "f" in own) && ("B" in ops <==> "B" in own)
  {
    NoFillOperator(["q", "m", "l", "w", "h", "j", "J"]);
    NoFillOperator(["d"]);
    NoFillOperator(["RG", "S", "Q"]);
  }

  /** Operators that start with none of the letters of `rg`, `f` and `B`
      include none of those three. */
  lemma NoFillOperator(ops: seq<string>)
    requires forall k :: 0 <= k < |ops| ==> |ops[k]| > 0 && ops[k][0] !in {'r', 'f', 'B'}
    ensures "rg" !in ops && "f" !in ops && "B" !in ops
  {
    forall k | 0 <= k < |ops|
      ensures ops[k] != "rg" && ops[k] != "f" && ops[k] != "B"
    {
      assert ops[k][0] != "rg"[0] && ops[k][0] != "f"[0] && ops[k][0] != "B"[0];
    }
  }

  // ---------------------------------------------------------------------
  // draw_rect
  // ---------------------------------------------------------------------

  /** The colour block of `draw_rect`, `S` included: fill and stroke colour
      then `B` when both are given (fill checked first), fill colour then
      `f` for fill only, the stroke colour for stroke only, black otherwise;
      `S` is added in every branch. */
  function ColorBlock(fmt: Formatter, stroke: Option<seq<real>>, fill: Option<seq<real>>): (r: Result<string>)
    ensures r.Ok? <==> (fill.Some? ==> ValidColor(fill.value)) && (stroke.Some? ==> ValidColor(stroke.value))
    ensures r.Err? ==> r.error == InvalidColor
  {
    var block :=
      if fill.Some? && stroke.Some? then
        (match ColorCode(fill.value, "f", fmt)
         case Err(e) => Err(e)
         case Ok(fc) =>
           match ColorCode(stroke.value, "c", fmt)
           case Err(e) => Err(e)
           case Ok(sc) => Ok(fc + sc + "B\n"))
      else if fill.Some? then
        (match ColorCode(fill.value, "f", fmt)
         case Err(e) => Err(e)
         case Ok(fc) => Ok(fc + "f\n"))
      else
        (match ColorCode(StrokeOrBlack(stroke), "c", fmt)
         case Err(e) => Err(e)
         case Ok(sc) => Ok(sc + "\n"));
    match block
    case Err(e) => Err(e)
    case Ok(b) => Ok(b + "S")
  }

  /** What a reader sees in the colour block, branch by branch. */
  function PaintWords(fmt: Formatter, stroke: Option<seq<real>>, fill: Option<seq<real>>): seq<string>
    requires fill.Some? ==> |fill.value| == 3
    requires |StrokeOrBlack(stroke)| == 3
  {
    if fill.Some? && stroke.Some? then
      ColorWords(fmt, fill.value, "rg") + ColorWords(fmt, stroke.value, "RG") + ["B", "S"]
    else if fill.Some? then
      ColorWords(fmt, fill.value, "rg") + ["f", "S"]
    else
      ColorWords(fmt, StrokeOrBlack(stroke), "RG") + ["S"]
  }

  /** The operators of the colour block, branch by branch. */
  function PaintOperators(stroke: Option<seq<real>>, fill: Option<seq<real>>): seq<string> {
    if fill.Some? && stroke.Some? then ["rg", "RG", "B", "S"]
    else if fill.Some? then ["rg", "f", "S"]
    else ["RG", "S"]
  }

  /** A word followed by a line break reads back as the word. */
  lemma WordThenBreak(s: string, w: string)
    requires s == [] || IsWhite(s[|s| - 1])
    requires IsWord(w)
    ensures Tokenize(s + w + "\n") == Tokenize(s) + [w]
  {
    TokenizeWord(w);
    TokenizeBlank("\n");
    TokenizeAppend(w, "\n");
    TokenizeAppend(s, w + "\n");
    assert s + w + "\n" == s + (w + "\n");
  }

  /** The colour block reads back as PaintWords, and its operators are
      PaintOperators: the trailing `S` is there in every branch. */
  lemma ColorBlockTokens(fmt: Formatter, stroke: Option<seq<real>>, fill: Option<seq<real>>)
    requires ValidFormatter(fmt)
    requires ColorBlock(fmt, stroke, fill).Ok?
    ensures Tokenize(ColorBlock(fmt, stroke, fill).value) == PaintWords(fmt, stroke, fill)
    ensures OperatorsOf(PaintWords(fmt, stroke, fill)) == PaintOperators(stroke, fill)
  {
    if fill.Some? && stroke.Some? {
      FillAndStrokeTokens(fmt, stroke.value, fill.value);
    } else if fill.Some? {
      FillOnlyTokens(fmt, fill.value);
    } else {
      StrokeOnlyTokens(fmt, StrokeOrBlack(stroke));
    }
  }

  lemma FillAndStrokeTokens(fmt: Formatter, stroke: seq<real>, fill: seq<real>)
    requires ValidFormatter(fmt) && ValidColor(stroke) && ValidColor(fill)
    ensures Tokenize(ColorCode(fill, "f", fmt).value + ColorCode(stroke, "c", fmt).value + "B\n" + "S")
         == ColorWords(fmt, fill, "rg") + ColorWords(fmt, stroke, "RG") + ["B", "S"]
    ensures OperatorsOf(ColorWords(fmt, fill, "rg") + ColorWords(fmt, stroke, "RG") + ["B", "S"])
         == ["rg", "RG", "B", "S"]
  {
    var fc := ColorCode(fill, "f", fmt).value;
    var sc := ColorCode(stroke, "c", fmt).value;
    ColorCodeTokens(fill, "f", fmt);
    ColorCodeTokens(stroke, "c", fmt);
    assert (fc + sc)[|fc + sc| - 1] == sc[|sc| - 1];
    TokenizeAppend(fc, sc);
    assert IsWord("B") && IsWord("S");
    WordThenBreak(fc + sc, "B");
    assert fc + sc + "B\n" == fc + sc + "B" + "\n";
    TokenizeWord("S");
    TokenizeAppend(fc + sc + "B\n", "S");
    FillAndStrokeOperators(fmt, stroke, fill);
  }

  lemma FillAndStrokeOperators(fmt: Formatter, stroke: seq<real>, fill: seq<real>)
    requires ValidFormatter(fmt) && |stroke| == 3 && |fill| == 3
    ensures OperatorsOf(ColorWords(fmt, fill, "rg") + ColorWords(fmt, stroke, "RG") + ["B", "S"])
         == ["rg", "RG", "B", "S"]
  {
    var fw := ColorWords(fmt, fill, "rg");
    var sw := ColorWords(fmt, stroke, "RG");
    PaintEnd(["B", "S"]);
    ColorWordsOperators(fmt, stroke, "RG", ["B", "S"]);
    ColorWordsOperators(fmt, fill, "rg", sw + ["B", "S"]);
    assert fw + sw + ["B", "S"] == fw + (sw + ["B", "S"]);
  }

  /** The operators that close a colour block are all kept. */
  lemma PaintEnd(ops: seq<string>)
    requires ops == ["B", "S"] || ops == ["f", "S"] || ops == ["S"]
    ensures OperatorsOf(ops) == ops
  {
    assert IsOperator("S");
    assert ops[0] == "B" ==> IsOperator("B");
    assert ops[0] == "f" ==> IsOperator("f");
    OperatorsOfAll(ops);
  }

  lemma FillOnlyTokens(fmt: Formatter, fill: seq<real>)
    requires ValidFormatter(fmt) && ValidColor(fill)
    ensures Tokenize(ColorCode(fill, "f", fmt).value + "f\n" + "S") == ColorWords(fmt, fill, "rg") + ["f", "S"]
    ensures OperatorsOf(ColorWords(fmt, fill, "rg") + ["f", "S"]) == ["rg", "f", "S"]
  {
    var fc := ColorCode(fill, "f", fmt).value;
    ColorCodeTokens(fill, "f", fmt);
    assert IsWord("f") && IsWord("S");
    WordThenBreak(fc, "f");
    assert fc + "f\n" == fc + "f" + "\n";
    TokenizeWord("S");
    TokenizeAppend(fc + "f\n", "S");
    PaintEnd(["f", "S"]);
    ColorWordsOperators(fmt, fill, "rg", ["f", "S"]);
  }

  lemma StrokeOnlyTokens(fmt: Formatter, stroke: seq<real>)
    requires ValidFormatter(fmt) && ValidColor(stroke)
    ensures Tokenize(ColorCode(stroke, "c", fmt).value + "\n" + "S") == ColorWords(fmt, stroke, "RG") + ["S"]
    ensures OperatorsOf(ColorWords(fmt, stroke, "RG") + ["S"]) == ["RG", "S"]
  {
    var sc := ColorCode(stroke, "c", fmt).value;
    ColorCodeTokens(stroke, "c", fmt);
    TokenizeBlank("\n");
    TokenizeAppend(sc, "\n");
    assert IsWord("S");
    TokenizeWord("S");
    TokenizeAppend(sc + "\n", "S");
    PaintEnd(["S"]);
    ColorWordsOperators(fmt, stroke, "RG", ["S"]);
  }

  /** "x y width height re", as the rectangle line is written. */
  function RectOp(fmt: Formatter, x: real, y: real, width: real, height: real): string {
    fmt(x) + " " + fmt(y) + " " + fmt(width) + " " + fmt(height) + " re"
  }

  lemma RectOpTokens(fmt: Formatter, x: real, y: real, width: real, height: real)
    requires ValidFormatter(fmt)
    ensures Tokenize(RectOp(fmt, x, y, width, height)) == [fmt(x), fmt(y), fmt(width), fmt(height), "re"]
  {
    NumeralOf(fmt, x);
    NumeralOf(fmt, y);
    NumeralOf(fmt, width);
    NumeralOf(fmt, height);
    TokenizeWord(fmt(x));
    AppendWord(fmt(x), fmt(y));
    AppendWord(fmt(x) + " " + fmt(y), fmt(width));
    AppendWord(fmt(x) + " " + fmt(y) + " " + fmt(width), fmt(height));
    assert IsWord("re");
    AppendWord(fmt(x) + " " + fmt(y) + " " + fmt(width) + " " + fmt(height), "re");
    assert RectOp(fmt, x, y, width, height) == fmt(x) + " " + fmt(y) + " " + fmt(width) + " " + fmt(height) + " " + "re";
  }

  lemma RectOperators(fmt: Formatter, x: real, y: real, width: real, height: real)
    requires ValidFormatter(fmt)
    ensures OperatorsOf([fmt(x), fmt(y), fmt(width), fmt(height), "re"]) == ["re"]
  {
    OperandOf(fmt, x);
    OperandOf(fmt, y);
    OperandOf(fmt, width);
    OperandOf(fmt, height);
    assert IsOperator("re");
    ThreeOperandsThen(fmt(y), fmt(width), fmt(height), "re", []);
    SkipOperand(fmt(x), [fmt(y), fmt(width), fmt(height), "re"] + []);
    assert [fmt(x), fmt(y), fmt(width), fmt(height), "re"] == [fmt(x)] + ([fmt(y), fmt(width), fmt(height), "re"] + []);
  }

  /** The template of `draw_rect`, one entry per line, around the dash line
      and the colour block (which spans two lines). */
  function RectLines(fmt: Formatter, point: seq<real>, width: real, height: real, borderWidth: real,
                     join: int, cap: int, dashLine: string, block: string): seq<string>
    requires |point| >= 2
  {
    ["q"]
      + [RectOp(fmt, point[0], point[1], width, height)]
      + [ValueOp(fmt, borderWidth, "w")]
      + ["h"]
      + [ValueOp(fmt, join as real, "j")]
      + [ValueOp(fmt, cap as real, "J")]
      + [dashLine]
      + [block]
      + ["Q"]
  }

  /** The fragment `draw_rect` appends, one entry per template line (the
      colour block as one entry), or the error it raises before appending
      anything.  Width and height are not checked. */
  function RectFragment(fmt: Formatter, point: seq<real>, width: real, height: real, borderWidth: real,
                        stroke: Option<seq<real>>, dash: Option<string>, fill: Option<seq<real>>,
                        join: int, cap: int): (r: Result<seq<string>>)
    ensures r.Ok? <==>
      0.0 <= borderWidth && 0 <= join <= 2 && 0 <= cap <= 2 &&
      (fill.Some? ==> ValidColor(fill.value)) && (stroke.Some? ==> ValidColor(stroke.value)) &&
      |point| >= 2
    ensures CheckStyle(borderWidth, join, cap).Err? ==> r == Err(CheckStyle(borderWidth, join, cap).error)
    ensures CheckStyle(borderWidth, join, cap).Ok? && ColorBlock(fmt, stroke, fill).Err? ==> r == Err(InvalidColor)
    ensures CheckStyle(borderWidth, join, cap).Ok? && ColorBlock(fmt, stroke, fill).Ok? && |point| < 2 ==>
      r == Err(MissingCoordinate)
    ensures r.Ok? ==> |r.value| == 9
  {
    match CheckStyle(borderWidth, join, cap)
    case Err(e) => Err(e)
    case Ok(_) =>
      match ColorBlock(fmt, stroke, fill)
      case Err(e) => Err(e)
      case Ok(block) =>
        if |point| < 2 then Err(MissingCoordinate)
        else Ok(RectLines(fmt, point, width, height, borderWidth, join, cap, DashLine(dash), block))
  }

  /** What a reader sees in the `draw_rect` template, given what it sees in
      the dash line and the colour block. */
  function RectWords(fmt: Formatter, point: seq<real>, width: real, height: real, borderWidth: real,
                     join: int, cap: int, dashWords: seq<string>, paint: seq<string>): seq<string>
    requires |point| >= 2
  {
    ["q"]
      + [fmt(point[0]), fmt(point[1]), fmt(width), fmt(height), "re"]
      + [fmt(borderWidth), "w"]
      + ["h"]
      + [fmt(join as real), "j"]
      + [fmt(cap as real), "J"]
      + dashWords
      + paint
      + ["Q"]
  }

  /** Each template line reads back as its own tokens, in line order. */
  lemma RectLinesTokens(fmt: Formatter, point: seq<real>, width: real, height: real, borderWidth: real,
                        join: int, cap: int, dashLine: string, block: string,
                        dashWords: seq<string>, paint: seq<string>)
    requires ValidFormatter(fmt) && |point| >= 2
    requires Tokenize(dashLine) == dashWords && Tokenize(block) == paint
    ensures LineTokens(RectLines(fmt, point, width, height, borderWidth, join, cap, dashLine, block))
         == RectWords(fmt, point, width, height, borderWidth, join, cap, dashWords, paint)
  {
    var p1 := ["q"];
    var p2 := p1 + [RectOp(fmt, point[0], point[1], width, height)];
    var p3 := p2 + [ValueOp(fmt, borderWidth, "w")];
    var p4 := p3 + ["h"];
    var p5 := p4 + [ValueOp(fmt, join as real, "j")];
    var p6 := p5 + [ValueOp(fmt, cap as real, "J")];
    var p7 := p6 + [dashLine];
    var p8 := p7 + [block];
    assert IsWord("q") && IsWord("w") && IsWord("h") && IsWord("j") && IsWord("J") && IsWord("Q");
    TokenizeWord("q");
    TokenizeWord("h");
    TokenizeWord("Q");
    RectOpTokens(fmt, point[0], point[1], width, height);
    ValueOpTokens(fmt, borderWidth, "w");
    ValueOpTokens(fmt, join as real, "j");
    ValueOpTokens(fmt, cap as real, "J");
    LineTokensSnoc([], "q");
    assert [] + ["q"] == p1;
    LineTokensSnoc(p1, RectOp(fmt, point[0], point[1], width, height));
    LineTokensSnoc(p2, ValueOp(fmt, borderWidth, "w"));
    LineTokensSnoc(p3, "h");
    LineTokensSnoc(p4, ValueOp(fmt, join as real, "j"));
    LineTokensSnoc(p5, ValueOp(fmt, cap as real, "J"));
    LineTokensSnoc(p6, dashLine);
    LineTokensSnoc(p7, block);
    LineTokensSnoc(p8, "Q");
  }

  /** The operators of the `draw_rect` template: save, rectangle, width,
      close, join, cap, then those of the dash line and colour block,
      restore. */
  lemma RectWordsOperators(fmt: Formatter, point: seq<real>, width: real, height: real, borderWidth: real,
                           join: int, cap: int, dashWords: seq<string>, paint: seq<string>,
                           dashOps: seq<string>, paintOps: seq<string>)
    requires ValidFormatter(fmt) && |point| >= 2
    requires OperatorsOf(dashWords) == dashOps && OperatorsOf(paint) == paintOps
    ensures OperatorsOf(RectWords(fmt, point, width, height, borderWidth, join, cap, dashWords, paint))
         == ["q", "re", "w", "h", "j", "J"] + dashOps + paintOps + ["Q"]
  {
    var t1 := ["q"];
    var t2 := t1 + [fmt(point[0]), fmt(point[1]), fmt(width), fmt(height), "re"];
    var t3 := t2 + [fmt(borderWidth), "w"];
    var t4 := t3 + ["h"];
    var t5 := t4 + [fmt(join as real), "j"];
    var t6 := t5 + [fmt(cap as real), "J"];
    var t7 := t6 + dashWords;
    var t8 := t7 + paint;
    assert IsOperator("q") && IsOperator("w") && IsOperator("h") && IsOperator("j");
    assert IsOperator("J") && IsOperator("Q");
    OneOperator("q");
    RectOperators(fmt, point[0], point[1], width, height);
    OperatorsOfAppend(t1, [fmt(point[0]), fmt(point[1]), fmt(width), fmt(height), "re"]);
    ValueOperators(fmt, borderWidth, "w");
    OperatorsOfAppend(t2, [fmt(borderWidth), "w"]);
    OneOperator("h");
    OperatorsOfAppend(t3, ["h"]);
    ValueOperators(fmt, join as real, "j");
    OperatorsOfAppend(t4, [fmt(join as real), "j"]);
    ValueOperators(fmt, cap as real, "J");
    OperatorsOfAppend(t5, [fmt(cap as real), "J"]);
    OperatorsOfAppend(t6, dashWords);
    OperatorsOfAppend(t7, paint);
    OneOperator("Q");
    OperatorsOfAppend(t8, ["Q"]);
    RectOperatorsJoined(dashOps, paintOps);
  }

  lemma RectOperatorsJoined(dashOps: seq<string>, paintOps: seq<string>)
    ensures ["q"] + ["re"] + ["w"] + ["h"] + ["j"] + ["J"] + dashOps + paintOps + ["Q"]
         == ["q", "re", "w", "h", "j", "J"] + dashOps + paintOps + ["Q"]
  {
    assert ["q"] + ["re"] + ["w"] + ["h"] + ["j"] + ["J"] == ["q", "re", "w", "h", "j", "J"];
  }

  /** Reading back the stream `draw_rect` appends gives the tokens of its
      template lines in order, the colour block reading as PaintWords. */
  lemma RectFragmentTokens(fmt: Formatter, point: seq<real>, width: real, height: real, borderWidth: real,
                           stroke: Option<seq<real>>, dash: Option<string>, fill: Option<seq<real>>,
                           join: int, cap: int)
    requires ValidFormatter(fmt)
    requires RectFragment(fmt, point, width, height, borderWidth, stroke, dash, fill, join, cap).Ok?
    ensures Tokenize(Render(RectFragment(fmt, point, width, height, borderWidth, stroke, dash, fill, join, cap).value))
         == RectWords(fmt, point, width, height, borderWidth, join, cap, DashWords(dash), PaintWords(fmt, stroke, fill))
  {
    var block := ColorBlock(fmt, stroke, fill).value;
    ColorBlockTokens(fmt, stroke, fill);
    DashLineTokens(dash);
    RectLinesTokens(fmt, point, width, height, borderWidth, join, cap, DashLine(dash), block,
                    DashWords(dash), PaintWords(fmt, stroke, fill));
    TokenizeRender(RectLines(fmt, point, width, height, borderWidth, join, cap, DashLine(dash), block));
  }

  /** The operators of a `draw_rect` fragment, in order: save, rectangle,
      width, close, join, cap, the dash setting (the pattern's own mnemonics
      then `d`) when a pattern is given, the colour block's operators (PaintOperators, always ending in `S`),
      restore. */
  lemma RectFragmentOperators(fmt: Formatter, point: seq<real>, width: real, height: real, borderWidth: real,
                              stroke: Option<seq<real>>, dash: Option<string>, fill: Option<seq<real>>,
                              join: int, cap: int)
    requires ValidFormatter(fmt)
    requires RectFragment(fmt, point, width, height, borderWidth, stroke, dash, fill, join, cap).Ok?
    ensures OperatorsOf(Tokenize(Render(RectFragment(fmt, point, width, height, borderWidth, stroke, dash, fill, join, cap).value)))
         == ["q", "re", "w", "h", "j", "J"] + DashOperators(dash) + PaintOperators(stroke, fill) + ["Q"]
  {
    RectFragmentTokens(fmt, point, width, height, borderWidth, stroke, dash, fill, join, cap);
    ColorBlockTokens(fmt, stroke, fill);
    DashLineTokens(dash);
    RectWordsOperators(fmt, point, width, height, borderWidth, join, cap, DashWords(dash),
                       PaintWords(fmt, stroke, fill), DashOperators(dash), PaintOperators(stroke, fill));
  }

  // ---------------------------------------------------------------------
  // The calls of the demonstration script
  // ---------------------------------------------------------------------

  /** A dash pattern "[a b] p" of three plain words reads back as those
      words, none of them an operator. */
  lemma DashPatternPlain(a: string, b: string, p: string)
    requires IsWord(a) && IsWord(b) && IsWord(p)
    requires !IsOperator(a) && !IsOperator(b) && !IsOperator(p)
    ensures Tokenize(a + " " + b + " " + p) == [a, b, p]
    ensures PlainDash(Some(a + " " + b + " " + p))
  {
    TokenizeWord(a);
    AppendWord(a, b);
    AppendWord(a + " " + b, p);
    OperatorsOfNone([a, b, p]);
  }

  /** Every operator mnemonic starts with a letter. */
  lemma NotOperatorUnlessLetter(t: string)
    requires |t| > 0 && !('a' <= t[0] <= 'z') && !('A' <= t[0] <= 'Z')
    ensures !IsOperator(t)
  {
  }

  /** The dash patterns of the script read as operands only. */
  lemma DemoDashPatterns()
    ensures PlainDash(Some("[2 2] 0")) && PlainDash(Some("[2 5] 0"))
  {
    assert IsWord("[2") && IsWord("2]") && IsWord("5]") && IsWord("0");
    NotOperatorUnlessLetter("[2");
    NotOperatorUnlessLetter("2]");
    NotOperatorUnlessLetter("5]");
    NotOperatorUnlessLetter("0");
    DashPatternPlain("[2", "2]", "0");
    DashPatternPlain("[2", "5]", "0");
    DemoPatternWords();
  }

  /** The script's patterns, word by word. */
  lemma DemoPatternWords()
    ensures "[2" + " " + "2]" + " " + "0" == "[2 2] 0"
    ensures "[2" + " " + "5]" + " " + "0" == "[2 5] 0"
  {
  }

  /** An unfilled rectangle with a dash pattern, stroked in the given
      colour or in the default black. */
  lemma DashedStrokedRect(fmt: Formatter, point: seq<real>, width: real, height: real, borderWidth: real,
                          stroke: Option<seq<real>>, pattern: string, join: int, cap: int)
    requires ValidFormatter(fmt) && PlainDash(Some(pattern)) && |point| >= 2
    requires stroke.Some? ==> ValidColor(stroke.value)
    requires 0.0 <= borderWidth && 0 <= join <= 2 && 0 <= cap <= 2
    ensures var frag := RectFragment(fmt, point, width, height, borderWidth, stroke, Some(pattern), None, join, cap);
      frag.Ok? &&
      OperatorsOf(Tokenize(Render(frag.value))) == ["q", "re", "w", "h", "j", "J", "d", "RG", "S", "Q"]
  {
    RectFragmentOperators(fmt, point, width, height, borderWidth, stroke, Some(pattern), None, join, cap);
  }

  /** The first rectangle of the script: green stroke, dash pattern
      "[2 2] 0", round joins, no fill. */
  lemma DemoDashedRect(fmt: Formatter, top: real)
    requires ValidFormatter(fmt)
    ensures var frag := RectFragment(fmt, [10.0, top - 110.0], 50.0, 100.0, 5.0,
                                     Some([0.0, 1.0, 0.0]), Some("[2 2] 0"), None, 1, 0);
      frag.Ok? &&
      OperatorsOf(Tokenize(Render(frag.value))) == ["q", "re", "w", "h", "j", "J", "d", "RG", "S", "Q"]
  {
    assert ValidColor([0.0, 1.0, 0.0]);
    DemoDashPatterns();
    DashedStrokedRect(fmt, [10.0, top - 110.0], 50.0, 100.0, 5.0, Some([0.0, 1.0, 0.0]), "[2 2] 0", 1, 0);
  }

  /** The fourth rectangle of the script: red fill only, which is filled
      and then still stroked. */
  lemma DemoFilledRect(fmt: Formatter, top: real)
    requires ValidFormatter(fmt)
    ensures var frag := RectFragment(fmt, [400.0, top - 110.0], 50.0, 50.0, 0.0,
                                     None, None, Some([1.0, 0.0, 0.0]), 0, 0);
      frag.Ok? &&
      OperatorsOf(Tokenize(Render(frag.value))) == ["q", "re", "w", "h", "j", "J", "rg", "f", "S", "Q"]
  {
    assert ValidColor([1.0, 0.0, 0.0]);
    RectFragmentOperators(fmt, [400.0, top - 110.0], 50.0, 50.0, 0.0,
                          None, None, Some([1.0, 0.0, 0.0]), 0, 0);
  }

  /** A line with a dash pattern, stroked in the given colour or in the
      default black. */
  lemma DashedLine(fmt: Formatter, start: seq<real>, end: seq<real>, borderWidth: real,
                   stroke: Option<seq<real>>, pattern: string, join: int, cap: int)
    requires ValidFormatter(fmt) && PlainDash(Some(pattern))
    requires stroke.Some? ==> ValidColor(stroke.value)
    requires |start| >= 2 && |end| >= 2
    requires 0.0 <= borderWidth && 0 <= join <= 2 && 0 <= cap <= 2
    ensures var frag := LineFragment(fmt, start, end, borderWidth, stroke, Some(pattern), join, cap);
      frag.Ok? &&
      OperatorsOf(Tokenize(Render(frag.value))) == ["q", "m", "l", "w", "h", "j", "J", "d", "RG", "S", "Q"]
  {
    LineFragmentOperators(fmt, start, end, borderWidth, stroke, Some(pattern), join, cap);
  }

  /** The line of the script: cyan, dash pattern "[2 5] 0", round joins and
      caps. */
  lemma DemoLine(fmt: Formatter, top: real)
    requires ValidFormatter(fmt)
    ensures var frag := LineFragment(fmt, [10.0, top - 150.0], [300.0, top - 400.0], 2.0,
                                     Some([0.0, 1.0, 1.0]), Some("[2 5] 0"), 1, 1);
      frag.Ok? &&
      OperatorsOf(Tokenize(Render(frag.value))) == ["q", "m", "l", "w", "h", "j", "J", "d", "RG", "S", "Q"]
  {
    assert ValidColor([0.0, 1.0, 1.0]);
    DemoDashPatterns();
    DashedLine(fmt, [10.0, top - 150.0], [300.0, top - 400.0], 2.0, Some([0.0, 1.0, 1.0]), "[2 5] 0", 1, 1);
  }

  // ---------------------------------------------------------------------
  // The page
  // ---------------------------------------------------------------------

  /** A page whose content stream is the sequence of streams appended to it;
      `contents_add` is its only mutator. */
  class Page {
    var contents: seq<string>

    constructor (initial: seq<string>)
      ensures contents == initial
    {
      contents := initial;
    }

    /** `contents_add`: one more stream at the end, nothing else changes. */
    method ContentsAdd(stream: string)
      modifies this
      ensures contents == old(contents) + [stream]
    {
      contents := contents + [stream];
    }

    /** `draw_line`: either raises, leaving the page as it was, or appends
        exactly the rendered LineFragment, once. */
    method DrawLine(fmt: Formatter, start: seq<real>, end: seq<real>, borderWidth: real,
                    stroke: Option<seq<real>>, dash: Option<string>, join: int, cap: int)
      returns (r: Result<()>)
      modifies this
      ensures r.Ok? <==> LineFragment(fmt, start, end, borderWidth, stroke, dash, join, cap).Ok?
      ensures r.Err? ==>
        r.error == LineFragment(fmt, start, end, borderWidth, stroke, dash, join, cap).error &&
        contents == old(contents)
      ensures r.Ok? ==>
        contents == old(contents) + [Render(LineFragment(fmt, start, end, borderWidth, stroke, dash, join, cap).value)]
    {
      if borderWidth < 0.0 {
        return Err(NegativeBorderWidth);
      }
      if join !in {0, 1, 2} {
        return Err(InvalidJoinStyle);
      }
      if cap !in {0, 1, 2} {
        return Err(InvalidCapStyle);
      }

      var color: Result<string>;
      if stroke.Some? {
        color := ColorCode(stroke.value, "c", fmt);
      } else {
        color := ColorCode(Black, "c", fmt);
      }
      if color.Err? {
        return Err(color.error);
      }
      var allColor := color.value;
      allColor := allColor + "S";

      var dashLine: string;
      if dash.Some? {
        dashLine := dash.value + " d";
      } else {
        dashLine := " ";
      }

      if |start| < 2 || |end| < 2 {
        return Err(MissingCoordinate);
      }
      assert LineFragment(fmt, start, end, borderWidth, stroke, dash, join, cap)
          == Ok(LineLines(fmt, start, end, borderWidth, join, cap, dashLine, allColor));
      var lineStream := Render(LineLines(fmt, start, end, borderWidth, join, cap, dashLine, allColor));
      ContentsAdd(lineStream);
      r := Ok(());
    }

    /** `draw_rect`: either raises, leaving the page as it was, or appends
        exactly the rendered RectFragment, once. */
    method DrawRect(fmt: Formatter, point: seq<real>, width: real, height: real, borderWidth: real,
                    stroke: Option<seq<real>>, dash: Option<string>, fill: Option<seq<real>>,
                    join: int, cap: int)
      returns (r: Result<()>)
      modifies this
      ensures r.Ok? <==> RectFragment(fmt, point, width, height, borderWidth, stroke, dash, fill, join, cap).Ok?
      ensures r.Err? ==>
        r.error == RectFragment(fmt, point, width, height, borderWidth, stroke, dash, fill, join, cap).error &&
        contents == old(contents)
      ensures r.Ok? ==>
        contents == old(contents)
          + [Render(RectFragment(fmt, point, width, height, borderWidth, stroke, dash, fill, join, cap).value)]
    {
      if borderWidth < 0.0 {
        return Err(NegativeBorderWidth);
      }
      if join !in {0, 1, 2} {
        return Err(InvalidJoinStyle);
      }
      if cap !in {0, 1, 2} {
        return Err(InvalidCapStyle);
      }

      var allColor := "";
      if fill.Some? && stroke.Some? {
        var fc := ColorCode(fill.value, "f", fmt);
        if fc.Err? {
          return Err(fc.error);
        }
        var sc := ColorCode(stroke.value, "c", fmt);
        if sc.Err? {
          return Err(sc.error);
        }
        allColor := fc.value + sc.value + "B\n";
        assert ColorBlock(fmt, stroke, fill) == Ok(allColor + "S");
      } else if fill.Some? {
        var fc := ColorCode(fill.value, "f", fmt);
        if fc.Err? {
          return Err(fc.error);
        }
        allColor := fc.value + "f\n";
        assert ColorBlock(fmt, stroke, fill) == Ok(allColor + "S");
      } else if stroke.Some? {
        var sc := ColorCode(stroke.value, "c", fmt);
        if sc.Err? {
          return Err(sc.error);
        }
        allColor := sc.value + "\n";
        assert ColorBlock(fmt, stroke, fill) == Ok(allColor + "S");
      } else if stroke.None? {
        allColor := ColorCode(Black, "c", fmt).value + "\n";
        assert ColorBlock(fmt, stroke, fill) == Ok(allColor + "S");
      }
      allColor := allColor + "S";

      var dashLine: string;
      if dash.Some? {
        dashLine := dash.value + " d";
      } else {
        dashLine := " ";
      }

      if |point| < 2 {
        return Err(MissingCoordinate);
      }
      assert RectFragment(fmt, point, width, height, borderWidth, stroke, dash, fill, join, cap)
          == Ok(RectLines(fmt, point, width, height, borderWidth, join, cap, dashLine, allColor));
      var rectStream := Render(RectLines(fmt, point, width, height, borderWidth, join, cap, dashLine, allColor));
      ContentsAdd(rectStream);
      r := Ok(());
    }
  }
}

