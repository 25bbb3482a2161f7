# pike_draw drawing helpers in Dafny

pike_draw.py adds simple drawing to a pikepdf page. It has three parts:

- `color_code` checks an RGB triple and writes it as a PDF colour operator: `RG` for stroke, `rg` for fill.
- `MyPage.draw_line` and `MyPage.draw_rect` check the line style: the border width, the join style and the cap style.
- Each draw method then builds a content-stream fragment from a fixed template and appends it to the page once, with `contents_add`.

This project models all three. It proves:

- which inputs each helper rejects, and with which error;
- that a rejected call leaves the page unchanged;
- that an accepted call appends exactly one fragment;
- how that fragment splits into white-space-separated words, line by line, and which of the fifteen drawing mnemonics appear among those words, in order, for every colour branch and every dash pattern.

Layout:

- `content_tokens.dfy` (module `ContentTokens`) is the reading side. It holds:
  - a tokenizer that splits at the white-space characters of ISO 32000-1:2008, section 7.2.2, Table 1, and nowhere else;
  - the set of operator mnemonics the helpers emit;
  - `Render`, which joins template lines into one stream;
  - lemmas that let tokenizing distribute over that joining.
- `pike_draw.dfy` (module `PikeDraw`) holds the helpers themselves:
  - `ColorCode`;
  - the fragment functions `LineFragment` and `RectFragment`, with lemmas about how they read back;
  - a `Page` class with a `contents` sequence and the methods `ContentsAdd`, `DrawLine` and `DrawRect`. These methods follow the source statement by statement and are proved against the fragment functions.

Python's `str` of a number is the parameter `fmt: Formatter`. Every lemma about tokens assumes `ValidFormatter(fmt)`: the text of a number is one non-empty word with no white space, and it is not an operator mnemonic.

## Model

| member | source | states |
|---|---|---|
| PikeDraw.SeqMin | pike_draw.py:13 | Python's `min` of a non-empty list: no larger than any element, and equal to one of them |
| PikeDraw.SeqMax | pike_draw.py:14 | Python's `max` of a non-empty list: no smaller than any element, and equal to one of them |
| PikeDraw.ColorOperator | pike_draw.py:17 | the flag "c" selects the stroke operator `RG`; every other flag, not only "f", selects the fill operator `rg` |
| PikeDraw.ColorCode | pike_draw.py:8-17 | succeeds exactly when the colour has three components, each in [0, 1]; otherwise fails with the colour error; on success the text ends in a blank, so the next word stays separate |
| PikeDraw.RejectedColorMeans | pike_draw.py:11-15 | over real numbers, the `len`/`min`/`max` guard rejects exactly the colours that are not three components in [0, 1]: no component is clamped or skipped |
| PikeDraw.ColorCodeTokens | pike_draw.py:17 | a valid colour reads back as its three components, verbatim and in order, then the operator its flag selects |
| PikeDraw.CheckStyle | pike_draw.py:45-50 | accepts exactly width >= 0, join in {0,1,2} and cap in {0,1,2}; reports the first failing check in the order width, join, cap |
| PikeDraw.DashLineTokens | pike_draw.py:58-61 | the dash line reads back as the pattern's own words then `d`, or as nothing when no pattern is given; its operators are the pattern's own mnemonics then `d`, so just `d` for a plain pattern; the pattern is not checked |
| PikeDraw.LineFragment | pike_draw.py:45-75 | `draw_line` succeeds exactly when the style is valid, the stroke colour (if given) is valid and both points have two coordinates; style errors come first, then the colour error, then the missing-coordinate error for a point with fewer than two coordinates; a fragment has ten template lines |
| PikeDraw.LineLinesTokens | pike_draw.py:64-75 | every line of the `draw_line` template reads back as its own tokens, in line order: q, the start point and m, the end point and l, the border width and w, h, the join and j, the cap and J, the dash line, the colour line, Q |
| PikeDraw.LineWordsOperators | pike_draw.py:64-75 | the operators of the `draw_line` template are q m l w h j J, then those of the dash line, then those of the colour line, then Q; no number is read as an operator |
| PikeDraw.LineFragmentTokens | pike_draw.py:52-75 | the rendered `draw_line` stream reads back as its template's tokens, with the dash pattern's tokens and then `d` (nothing without a pattern), and the stroke colour (black `0 0 0` when none is given) followed by `RG` and `S` |
| PikeDraw.LineFragmentOperators | pike_draw.py:52-75 | for every dash pattern, the mnemonics of a `draw_line` fragment are exactly q m l w h j J, then (with a pattern) the pattern's own mnemonics and d, then RG S Q |
| PikeDraw.LineNeverFills | pike_draw.py:52-59 | `rg`, `f` or `B` appears in a `draw_line` fragment exactly when the dash pattern text itself holds it; so for a pattern with no mnemonic of its own, the fragment never fills |
| PikeDraw.ColorBlock | pike_draw.py:115-125 | the colour block succeeds exactly when every given colour is valid, and fails with the colour error otherwise |
| PikeDraw.ColorBlockTokens | pike_draw.py:115-125 | the colour block reads back branch by branch: fill+stroke gives rg RG B S, fill only gives rg f S, stroke or neither gives RG S (black by default); `S` is there in every branch |
| PikeDraw.FillAndStrokeTokens | pike_draw.py:117 | with both colours given, the block reads as the fill colour words, the stroke colour words, `B`, `S` |
| PikeDraw.FillOnlyTokens | pike_draw.py:119 | with only a fill colour, the block reads as the fill colour words, `f`, `S` |
| PikeDraw.StrokeOnlyTokens | pike_draw.py:121-123 | with no fill colour, the block reads as the stroke (or black) colour words then `S` |
| PikeDraw.RectFragment | pike_draw.py:105-144 | `draw_rect` succeeds exactly when the style is valid, every given colour is valid and the point has two coordinates; style errors come first, then the colour error; width and height are never checked; a point with fewer than two coordinates gives the missing-coordinate error after the colour checks; a fragment has nine template entries, the colour block counting as one |
| PikeDraw.RectLinesTokens | pike_draw.py:134-144 | every line of the `draw_rect` template reads back as its own tokens, in line order: q, the point, width, height and re, the border width and w, h, the join and j, the cap and J, the dash line, the colour block, Q |
| PikeDraw.RectWordsOperators | pike_draw.py:134-144 | the operators of the `draw_rect` template are q re w h j J, then those of the dash line, then those of the colour block, then Q; no number is read as an operator |
| PikeDraw.RectFragmentTokens | pike_draw.py:115-144 | the rendered `draw_rect` stream reads back as its template's tokens, the dash line as the pattern's tokens then `d` (nothing without a pattern) and the colour block branch by branch as in ColorBlockTokens |
| PikeDraw.RectFragmentOperators | pike_draw.py:115-144 | for every dash pattern, the mnemonics of a `draw_rect` fragment are exactly q re w h j J, then (with a pattern) the pattern's own mnemonics and d, then the colour block's mnemonics, then Q |
| PikeDraw.DashedStrokedRect | pike_draw.py:120-144 | an unfilled rectangle, stroked in a given colour or in the default black, with a dash pattern that holds no mnemonic of its own has the mnemonics q re w h j J d RG S Q |
| PikeDraw.DashedLine | pike_draw.py:52-75 | a line with a dash pattern that holds no mnemonic of its own, stroked in a given colour or in the default black, has the mnemonics q m l w h j J d RG S Q |
| PikeDraw.DemoDashPatterns | pike_draw.py:161-168 | the script's patterns "[2 2] 0" (line 161) and "[2 5] 0" (line 168) hold no drawing mnemonic |
| PikeDraw.DemoDashedRect | pike_draw.py:161 | the script's first rectangle is accepted, and its operators are q re w h j J d RG S Q |
| PikeDraw.DemoFilledRect | pike_draw.py:164 | the script's fill-only rectangle is accepted, and its operators are q re w h j J rg f S Q: it is filled and still stroked |
| PikeDraw.DemoLine | pike_draw.py:166-171 | the script's line is accepted, and its operators are q m l w h j J d RG S Q |
| PikeDraw.Page.constructor | pike_draw.py:20 | a page starts with the given content streams |
| PikeDraw.Page.ContentsAdd | pike_draw.py:77 | `contents_add` appends one stream and changes nothing else |
| PikeDraw.Page.DrawLine | pike_draw.py:22-77 | returns an error exactly when LineFragment does, and then the page is unchanged; otherwise it appends the rendered LineFragment, once |
| PikeDraw.Page.DrawRect | pike_draw.py:80-146 | returns an error exactly when RectFragment does, and then the page is unchanged; otherwise it appends the rendered RectFragment, once |
| ContentTokens.TokenizeRender | pike_draw.py:64-75 | reading a stream of template lines gives the tokens of each line, in line order; the line breaks change no token |
| ContentTokens.OperatorMnemonics | pike_draw.py:64-75 | a token is read as an operator exactly when it is one of the fifteen mnemonics the templates use |

## Left out

- The pikepdf library is not part of this model. This covers `pikepdf.Page`, the page wrapper and document saving. `contents_add` is modelled as an append to the page's `contents` sequence.
- The `__main__` script (pike_draw.py:152-174) prints, creates and saves a document; those steps are left out. Its drawing calls at lines 161, 164 and 166-171 appear only as the Demo lemmas. The script's numbers are written as reals.
- Python's formatting of numbers (`5.0` against `5`) is the parameter `fmt`. The token lemmas assume only that a number is written as one word that is not an operator mnemonic.
- The `bytes(..., 'ascii')` step is left out, together with its possible encoding error. A stream is a `string`.
- The template's indentation and blank lines are white space to a PDF reader. `Render` keeps one line break per template line, and the tokens are unchanged.
- The Python type checks are left out: `type(c) is not list`, which rejects tuples, and `min`/`max`, which raise on entries that are not numbers. A colour is a `seq<real>`, so only the length and range checks remain.
- Points are `seq<real>`. A point with fewer than two coordinates raises `IndexError` while the template is filled in, which is after the colour checks. The model reports this as `MissingCoordinate`.
- The dash pattern and the point are never validated (pike_draw.py:112-113), and neither are width and height. No check is invented for them.
- PikeDraw.ColorBlock: both colours raise the same `ValueError`. Checking the fill colour before the stroke colour (pike_draw.py:117) therefore changes no observable result. `DrawRect` keeps that statement order, but no contract can tell the two orders apart.
- PikeDraw.LineNeverFills, PikeDraw.DashedLine, PikeDraw.DashedStrokedRect: the statements that a fragment has no fill operator, or exactly one `d`, hold only for a dash pattern whose own words contain no drawing mnemonic (`PlainDash`). The source passes any pattern text through unchecked, so a pattern such as `0 0 0 rg` adds its own operators. `LineFragmentOperators` and `RectFragmentOperators` give the operators for every pattern.
- Join and cap styles are `int`, as annotated in the source. Their text is `fmt(join as real)`.
- ContentTokens.Tokenize, ContentTokens.IsOperator: a word is a maximal run of non-white characters, and an operator is one of the fifteen mnemonics the templates use. The PDF delimiters `[ ] ( ) < > { } /`, `%` comments and every other operator are not modelled. So `[2` is one word here where a PDF reader sees `[` then `2`, a pattern `0 cm` counts as plain although a reader runs `cm`, and a pattern `%` is read as a word followed by `d` where a reader sees a comment. The token and operator results are about this word-level reading only.
- PikeDraw.ValidColor, PikeDraw.RejectedColorMeans, PikeDraw.CheckStyle: numbers are Dafny reals, so Python's float NaN and the infinities are not represented. Every comparison with NaN is false in Python, so the source accepts a NaN colour component at pike_draw.py:13-14 and a NaN border width at pike_draw.py:45; it also accepts an infinite border width. These inputs have no counterpart in the model, and the colour and style results hold over reals only.
