/** ConsoleUtil: the table of console styles (message symbols and ANSI escape sequences),
    the lookup from a TextFormat to its string, and the formatting of a console message
    of a given LogType with the timestamp fixed when the class is loaded. */
module ConsoleUtil {
  import opened JavaLang
  import opened Enums

  /** The escape character that starts every ANSI sequence. */
  const Esc: char := '\U{1B}'

  // Message symbols, code point by code point as the source text spells them.
  const SuccessMessageSymbol: string := "\U{F8FF}\U{FC}\U{FC}\U{A2}"
  const WarningMessageSymbol: string := "\U{F8FF}\U{FC}\U{FC}\U{2020}"
  const ErrorMessageSymbol: string := "\U{F8FF}\U{FC}\U{EE}\U{A5}"
  const InformationalMessageSymbol: string := "\U{201A}\U{D1}\U{3C0}\U{D4}\U{220F}\U{E8}"
  const DebugMessageSymbol: string := "\U{F8FF}\U{FC}\U{EA}\U{FB}"
  const FatalMessageSymbol: string := "\U{201A}\U{F2}\U{2020}\U{D4}\U{220F}\U{E8}"

  // Reset of all text attributes.
  const ResetTextFormat: string := "\U{1B}[0m"

  // Text colours.
  const ColourBlack: string := "\U{1B}[30m"
  const ColourRed: string := "\U{1B}[31m"
  const ColourGreen: string := "\U{1B}[32m"
  const ColourYellow: string := "\U{1B}[33m"
  const ColourBlue: string := "\U{1B}[34m"
  const ColourPurple: string := "\U{1B}[35m"
  const ColourCyan: string := "\U{1B}[36m"
  const ColourWhite: string := "\U{1B}[37m"
  const ColourOrange: string := "\U{1B}[38;5;208m"
  const ColourPink: string := "\U{1B}[95m"
  const ColourLime: string := "\U{1B}[92m"

  // Bold text colours.
  const BoldBlack: string := "\U{1B}[1;30m"
  const BoldRed: string := "\U{1B}[1;31m"
  const BoldGreen: string := "\U{1B}[1;32m"
  const BoldYellow: string := "\U{1B}[1;33m"
  const BoldBlue: string := "\U{1B}[1;34m"
  const BoldPurple: string := "\U{1B}[1;35m"
  const BoldCyan: string := "\U{1B}[1;36m"
  const BoldWhite: string := "\U{1B}[1;37m"
  const BoldOrange: string := "\U{1B}[1;38;5;208m"
  const BoldPink: string := "\U{1B}[1;38;5;201m"
  const BoldLime: string := "\U{1B}[1;38;5;154m"

  // Underlined text colours.
  const UnderlineBlack: string := "\U{1B}[4;30m"
  const UnderlineRed: string := "\U{1B}[4;31m"
  const UnderlineGreen: string := "\U{1B}[4;32m"
  const UnderlineYellow: string := "\U{1B}[4;33m"
  const UnderlineBlue: string := "\U{1B}[4;34m"
  const UnderlinePurple: string := "\U{1B}[4;35m"
  const UnderlineCyan: string := "\U{1B}[4;36m"
  const UnderlineWhite: string := "\U{1B}[4;37m"
  const UnderlineOrange: string := "\U{1B}[4;38;5;208m"
  const UnderlinePink: string := "\U{1B}[4;38;5;201m"
  const UnderlineLime: string := "\U{1B}[4;38;5;154m"

  // Background colours.
  const BackgroundBlack: string := "\U{1B}[40m"
  const BackgroundRed: string := "\U{1B}[41m"
  const BackgroundGreen: string := "\U{1B}[42m"
  const BackgroundYellow: string := "\U{1B}[43m"
  const BackgroundBlue: string := "\U{1B}[44m"
  const BackgroundPurple: string := "\U{1B}[45m"
  const BackgroundCyan: string := "\U{1B}[46m"
  const BackgroundWhite: string := "\U{1B}[47m"
  const BackgroundOrange: string := "\U{1B}[48;5;208m"
  const BackgroundPink: string := "\U{1B}[48;5;201m"
  const BackgroundLime: string := "\U{1B}[48;5;154m"

  /** s is an ANSI Select Graphic Rendition sequence: ESC, '[', parameters, 'm'. */
  predicate IsSgrSequence(s: string)
  {
    |s| >= 3 && s[0] == Esc && s[1] == '[' && s[|s| - 1] == 'm'
  }

  /** getTextFormat: the string of the constant named like the format. The switch names
      every TextFormat, so for every non-null TextFormat the default case that throws
      cannot be reached. A message symbol is never an escape sequence; every other format is one. */
  function GetTextFormat(textFormat: TextFormat): (r: string)
    ensures textFormat.IsMessageSymbol() ==> |r| > 0 && r[0] != Esc
    ensures !textFormat.IsMessageSymbol() ==> IsSgrSequence(r)
  {
    match textFormat
    case RESET => ResetTextFormat

    case SUCCESS_MESSAGE_SYMBOL => SuccessMessageSymbol
    case WARNING_MESSAGE_SYMBOL => WarningMessageSymbol
    case ERROR_MESSAGE_SYMBOL => ErrorMessageSymbol
    case INFORMATIONAL_MESSAGE_SYMBOL => InformationalMessageSymbol
    case DEBUG_MESSAGE_SYMBOL => DebugMessageSymbol
    case FATAL_MESSAGE_SYMBOL => FatalMessageSymbol

    case COLOUR_BLACK => ColourBlack
    case COLOUR_RED => ColourRed
    case COLOUR_GREEN => ColourGreen
    case COLOUR_YELLOW => ColourYellow
    case COLOUR_BLUE => ColourBlue
    case COLOUR_PURPLE => ColourPurple
    case COLOUR_CYAN => ColourCyan
    case COLOUR_WHITE => ColourWhite
    case COLOUR_ORANGE => ColourOrange
    case COLOUR_PINK => ColourPink
    case COLOUR_LIME => ColourLime

    case BOLD_BLACK => BoldBlack
    case BOLD_RED => BoldRed
    case BOLD_GREEN => BoldGreen
    case BOLD_YELLOW => BoldYellow
    case BOLD_BLUE => BoldBlue
    case BOLD_PURPLE => BoldPurple
    case BOLD_CYAN => BoldCyan
    case BOLD_WHITE => BoldWhite
    case BOLD_ORANGE => BoldOrange
    case BOLD_PINK => BoldPink
    case BOLD_LIME => BoldLime

    case UNDERLINE_BLACK => UnderlineBlack
    case UNDERLINE_RED => UnderlineRed
    case UNDERLINE_GREEN => UnderlineGreen
    case UNDERLINE_YELLOW => UnderlineYellow
    case UNDERLINE_BLUE => UnderlineBlue
    case UNDERLINE_PURPLE => UnderlinePurple
    case UNDERLINE_CYAN => UnderlineCyan
    case UNDERLINE_WHITE => UnderlineWhite
    case UNDERLINE_ORANGE => UnderlineOrange
    case UNDERLINE_PINK => UnderlinePink
    case UNDERLINE_LIME => UnderlineLime

    case BACKGROUND_BLACK => BackgroundBlack
    case BACKGROUND_RED => BackgroundRed
    case BACKGROUND_GREEN => BackgroundGreen
    case BACKGROUND_YELLOW => BackgroundYellow
    case BACKGROUND_BLUE => BackgroundBlue
    case BACKGROUND_PURPLE => BackgroundPurple
    case BACKGROUND_CYAN => BackgroundCyan
    case BACKGROUND_WHITE => BackgroundWhite
    case BACKGROUND_ORANGE => BackgroundOrange
    case BACKGROUND_PINK => BackgroundPink
    case BACKGROUND_LIME => BackgroundLime
  }

  // An independent description of the colour formats: a style and a colour determine
  // the SGR parameters of the escape sequence.

  datatype Style = Plain | Bold | Underline | Background
  datatype Colour = Black | Red | Green | Yellow | Blue | Purple | Cyan | White | Orange | Pink | Lime

  /** The TextFormat constant for a style and a colour. */
  function Styled(style: Style, colour: Colour): (f: TextFormat)
    ensures !f.IsMessageSymbol() && f != RESET
  {
    match style
    case Plain => (match colour
      case Black => COLOUR_BLACK case Red => COLOUR_RED case Green => COLOUR_GREEN
      case Yellow => COLOUR_YELLOW case Blue => COLOUR_BLUE case Purple => COLOUR_PURPLE
      case Cyan => COLOUR_CYAN case White => COLOUR_WHITE case Orange => COLOUR_ORANGE
      case Pink => COLOUR_PINK case Lime => COLOUR_LIME)
    case Bold => (match colour
      case Black => BOLD_BLACK case Red => BOLD_RED case Green => BOLD_GREEN
      case Yellow => BOLD_YELLOW case Blue => BOLD_BLUE case Purple => BOLD_PURPLE
      case Cyan => BOLD_CYAN case White => BOLD_WHITE case Orange => BOLD_ORANGE
      case Pink => BOLD_PINK case Lime => BOLD_LIME)
    case Underline => (match colour
      case Black => UNDERLINE_BLACK case Red => UNDERLINE_RED case Green => UNDERLINE_GREEN
      case Yellow => UNDERLINE_YELLOW case Blue => UNDERLINE_BLUE case Purple => UNDERLINE_PURPLE
      case Cyan => UNDERLINE_CYAN case White => UNDERLINE_WHITE case Orange => UNDERLINE_ORANGE
      case Pink => UNDERLINE_PINK case Lime => UNDERLINE_LIME)
    case Background => (match colour
      case Black => BACKGROUND_BLACK case Red => BACKGROUND_RED case Green => BACKGROUND_GREEN
      case Yellow => BACKGROUND_YELLOW case Blue => BACKGROUND_BLUE case Purple => BACKGROUND_PURPLE
      case Cyan => BACKGROUND_CYAN case White => BACKGROUND_WHITE case Orange => BACKGROUND_ORANGE
      case Pink => BACKGROUND_PINK case Lime => BACKGROUND_LIME)
  }

  /** The style and colour a colour format is named by: Styled reaches every format that is
      neither a message symbol nor RESET. */
  function Unstyle(f: TextFormat): (sc: (Style, Colour))
    requires !f.IsMessageSymbol() && f != RESET
    ensures Styled(sc.0, sc.1) == f
  {
    if f in StyleFormats(Plain) then (Plain, UnstyleColour(Plain, f))
    else if f in StyleFormats(Bold) then (Bold, UnstyleColour(Bold, f))
    else if f in StyleFormats(Underline) then (Underline, UnstyleColour(Underline, f))
    else (Background, UnstyleColour(Background, f))
  }

  /** The eleven colour formats of one style. */
  function StyleFormats(style: Style): set<TextFormat>
  {
    match style
    case Plain => {COLOUR_BLACK, COLOUR_RED, COLOUR_GREEN, COLOUR_YELLOW, COLOUR_BLUE, COLOUR_PURPLE, COLOUR_CYAN, COLOUR_WHITE, COLOUR_ORANGE, COLOUR_PINK, COLOUR_LIME}
    case Bold => {BOLD_BLACK, BOLD_RED, BOLD_GREEN, BOLD_YELLOW, BOLD_BLUE, BOLD_PURPLE, BOLD_CYAN, BOLD_WHITE, BOLD_ORANGE, BOLD_PINK, BOLD_LIME}
    case Underline => {UNDERLINE_BLACK, UNDERLINE_RED, UNDERLINE_GREEN, UNDERLINE_YELLOW, UNDERLINE_BLUE, UNDERLINE_PURPLE, UNDERLINE_CYAN, UNDERLINE_WHITE, UNDERLINE_ORANGE, UNDERLINE_PINK, UNDERLINE_LIME}
    case Background => {BACKGROUND_BLACK, BACKGROUND_RED, BACKGROUND_GREEN, BACKGROUND_YELLOW, BACKGROUND_BLUE, BACKGROUND_PURPLE, BACKGROUND_CYAN, BACKGROUND_WHITE, BACKGROUND_ORANGE, BACKGROUND_PINK, BACKGROUND_LIME}
  }

  /** The colour of a format of the given style. */
  function UnstyleColour(style: Style, f: TextFormat): (c: Colour)
    requires f in StyleFormats(style)
    ensures Styled(style, c) == f
  {
    match style
    case Plain => (match f
      case COLOUR_BLACK => Black
      case COLOUR_RED => Red
      case COLOUR_GREEN => Green
      case COLOUR_YELLOW => Yellow
      case COLOUR_BLUE => Blue
      case COLOUR_PURPLE => Purple
      case COLOUR_CYAN => Cyan
      case COLOUR_WHITE => White
      case COLOUR_ORANGE => Orange
      case COLOUR_PINK => Pink
      case COLOUR_LIME => Lime
      case _ => assert false; Black)
    case Bold => (match f
      case BOLD_BLACK => Black
      case BOLD_RED => Red
      case BOLD_GREEN => Green
      case BOLD_YELLOW => Yellow
      case BOLD_BLUE => Blue
      case BOLD_PURPLE => Purple
      case BOLD_CYAN => Cyan
      case BOLD_WHITE => White
      case BOLD_ORANGE => Orange
      case BOLD_PINK => Pink
      case BOLD_LIME => Lime
      case _ => assert false; Black)
    case Underline => (match f
      case UNDERLINE_BLACK => Black
      case UNDERLINE_RED => Red
      case UNDERLINE_GREEN => Green
      case UNDERLINE_YELLOW => Yellow
      case UNDERLINE_BLUE => Blue
      case UNDERLINE_PURPLE => Purple
      case UNDERLINE_CYAN => Cyan
      case UNDERLINE_WHITE => White
      case UNDERLINE_ORANGE => Orange
      case UNDERLINE_PINK => Pink
      case UNDERLINE_LIME => Lime
      case _ => assert false; Black)
    case Background => (match f
      case BACKGROUND_BLACK => Black
      case BACKGROUND_RED => Red
      case BACKGROUND_GREEN => Green
      case BACKGROUND_YELLOW => Yellow
      case BACKGROUND_BLUE => Blue
      case BACKGROUND_PURPLE => Purple
      case BACKGROUND_CYAN => Cyan
      case BACKGROUND_WHITE => White
      case BACKGROUND_ORANGE => Orange
      case BACKGROUND_PINK => Pink
      case BACKGROUND_LIME => Lime
      case _ => assert false; Black)
  }

  /** The digit of one of the eight standard ANSI colours, None for the palette colours. */
  function StandardDigit(colour: Colour): Option<char>
  {
    match colour
    case Black => Some('0') case Red => Some('1') case Green => Some('2') case Yellow => Some('3')
    case Blue => Some('4') case Purple => Some('5') case Cyan => Some('6') case White => Some('7')
    case _ => None
  }

  /** The index of a colour in the 256-colour palette, for the colours that use it. */
  function PaletteIndex(colour: Colour): string
  {
    match colour
    case Orange => "208"
    case Pink => "201"
    case Lime => "154"
    case _ => ""
  }

  /** SGR parameters: standard colours are 30-37 (foreground) or 40-47 (background); the
      palette colours are 38;5;n or 48;5;n; bold adds the prefix 1;, underline 4;. Plain
      pink and plain lime are the exception: they use the bright foreground codes 95 and 92. */
  function SgrParameters(style: Style, colour: Colour): string
  {
    var prefix := match style case Bold => "1;" case Underline => "4;" case _ => "";
    match StandardDigit(colour)
    case Some(d) => prefix + (if style == Background then "4" else "3") + [d]
    case None =>
      if style == Plain && colour == Pink then "95"
      else if style == Plain && colour == Lime then "92"
      else prefix + (if style == Background then "48;5;" else "38;5;") + PaletteIndex(colour)
  }

  /** Every colour format's string is the SGR sequence its style and colour determine. */
  lemma GetTextFormatIsSgr(style: Style, colour: Colour)
    ensures GetTextFormat(Styled(style, colour)) == [Esc, '['] + SgrParameters(style, colour) + "m"
  {
    if StandardDigit(colour).Some? {
      match style
      case Plain => PlainStandardIsSgr(colour);
      case Bold => BoldStandardIsSgr(colour);
      case Underline => UnderlineStandardIsSgr(colour);
      case Background => BackgroundStandardIsSgr(colour);
    } else {
      match style
      case Plain => PlainPaletteIsSgr(colour);
      case Bold => BoldPaletteIsSgr(colour);
      case Underline => UnderlinePaletteIsSgr(colour);
      case Background => BackgroundPaletteIsSgr(colour);
    }
  }

  lemma PlainStandardIsSgr(colour: Colour)
    requires StandardDigit(colour).Some?
    ensures GetTextFormat(Styled(Plain, colour)) == [Esc, '['] + SgrParameters(Plain, colour) + "m"
  {
    match colour
    case Black =>
    case Red =>
    case Green =>
    case Yellow =>
    case Blue =>
    case Purple =>
    case Cyan =>
    case White =>
  }

  lemma PlainPaletteIsSgr(colour: Colour)
    requires StandardDigit(colour).None?
    ensures GetTextFormat(Styled(Plain, colour)) == [Esc, '['] + SgrParameters(Plain, colour) + "m"
  {
    match colour
    case Orange =>
    case Pink =>
    case Lime =>
  }

  lemma BoldStandardIsSgr(colour: Colour)
    requires StandardDigit(colour).Some?
    ensures GetTextFormat(Styled(Bold, colour)) == [Esc, '['] + SgrParameters(Bold, colour) + "m"
  {
    match colour
    case Black =>
    case Red =>
    case Green =>
    case Yellow =>
    case Blue =>
    case Purple =>
    case Cyan =>
    case White =>
  }

  lemma BoldPaletteIsSgr(colour: Colour)
    requires StandardDigit(colour).None?
    ensures GetTextFormat(Styled(Bold, colour)) == [Esc, '['] + SgrParameters(Bold, colour) + "m"
  {
    match colour
    case Orange =>
      assert Styled(Bold, Orange) == BOLD_ORANGE;
      assert GetTextFormat(BOLD_ORANGE) == [Esc, '['] + "1;38;5;208" + "m";
      assert SgrParameters(Bold, Orange) == "1;38;5;208";
    case Pink =>
      assert Styled(Bold, Pink) == BOLD_PINK;
      assert GetTextFormat(BOLD_PINK) == [Esc, '['] + "1;38;5;201" + "m";
      assert SgrParameters(Bold, Pink) == "1;38;5;201";
    case Lime =>
      assert Styled(Bold, Lime) == BOLD_LIME;
      assert GetTextFormat(BOLD_LIME) == [Esc, '['] + "1;38;5;154" + "m";
      assert SgrParameters(Bold, Lime) == "1;38;5;154";
  }

  lemma UnderlineStandardIsSgr(colour: Colour)
    requires StandardDigit(colour).Some?
    ensures GetTextFormat(Styled(Underline, colour)) == [Esc, '['] + SgrParameters(Underline, colour) + "m"
  {
    match colour
    case Black =>
    case Red =>
    case Green =>
    case Yellow =>
    case Blue =>
    case Purple =>
    case Cyan =>
    case White =>
  }

  lemma UnderlinePaletteIsSgr(colour: Colour)
    requires StandardDigit(colour).None?
    ensures GetTextFormat(Styled(Underline, colour)) == [Esc, '['] + SgrParameters(Underline, colour) + "m"
  {
    match colour
    case Orange =>
      assert Styled(Underline, Orange) == UNDERLINE_ORANGE;
      assert GetTextFormat(UNDERLINE_ORANGE) == [Esc, '['] + "4;38;5;208" + "m";
      assert SgrParameters(Underline, Orange) == "4;38;5;208";
    case Pink =>
      assert Styled(Underline, Pink) == UNDERLINE_PINK;
      assert GetTextFormat(UNDERLINE_PINK) == [Esc, '['] + "4;38;5;201" + "m";
      assert SgrParameters(Underline, Pink) == "4;38;5;201";
    case Lime =>
      assert Styled(Underline, Lime) == UNDERLINE_LIME;
      assert GetTextFormat(UNDERLINE_LIME) == [Esc, '['] + "4;38;5;154" + "m";
      assert SgrParameters(Underline, Lime) == "4;38;5;154";
  }

  lemma BackgroundStandardIsSgr(colour: Colour)
    requires StandardDigit(colour).Some?
    ensures GetTextFormat(Styled(Background, colour)) == [Esc, '['] + SgrParameters(Background, colour) + "m"
  {
    match colour
    case Black =>
    case Red =>
    case Green =>
    case Yellow =>
    case Blue =>
    case Purple =>
    case Cyan =>
    case White =>
  }

  lemma BackgroundPaletteIsSgr(colour: Colour)
    requires StandardDigit(colour).None?
    ensures GetTextFormat(Styled(Background, colour)) == [Esc, '['] + SgrParameters(Background, colour) + "m"
  {
    match colour
    case Orange =>
      assert Styled(Background, Orange) == BACKGROUND_ORANGE;
      assert GetTextFormat(BACKGROUND_ORANGE) == [Esc, '['] + "48;5;208" + "m";
      assert SgrParameters(Background, Orange) == "48;5;208";
    case Pink =>
      assert Styled(Background, Pink) == BACKGROUND_PINK;
      assert GetTextFormat(BACKGROUND_PINK) == [Esc, '['] + "48;5;201" + "m";
      assert SgrParameters(Background, Pink) == "48;5;201";
    case Lime =>
      assert Styled(Background, Lime) == BACKGROUND_LIME;
      assert GetTextFormat(BACKGROUND_LIME) == [Esc, '['] + "48;5;154" + "m";
      assert SgrParameters(Background, Lime) == "48;5;154";
  }

  /** The symbol and the bold colour each LogType is written with. */
  function SymbolFormat(logType: LogType): (f: TextFormat)
    ensures f.IsMessageSymbol()
  {
    match logType
    case SUCCESS => SUCCESS_MESSAGE_SYMBOL
    case WARNING => WARNING_MESSAGE_SYMBOL
    case ERROR => ERROR_MESSAGE_SYMBOL
    case INFO => INFORMATIONAL_MESSAGE_SYMBOL
  }

  function ColourFormat(logType: LogType): (f: TextFormat)
    ensures !f.IsMessageSymbol() && f != RESET && Unstyle(f).0 == Bold
    ensures logType == SUCCESS ==> Unstyle(f).1 == Green
    ensures logType == WARNING ==> Unstyle(f).1 == Orange
    ensures logType == ERROR ==> Unstyle(f).1 == Red
    ensures logType == INFO ==> Unstyle(f).1 == Blue
  {
    match logType
    case SUCCESS => BOLD_GREEN
    case WARNING => BOLD_ORANGE
    case ERROR => BOLD_RED
    case INFO => BOLD_BLUE
  }

  /** Everything log writes before the message: symbol, bold colour and bracketed timestamp. */
  function Header(timestamp: string, logType: LogType): (r: string)
    ensures var symbol, colour := GetTextFormat(SymbolFormat(logType)), GetTextFormat(ColourFormat(logType));
      && |r| == |symbol| + |colour| + |timestamp| + 5
      && r[..|symbol|] == symbol && r[|symbol|..|symbol| + |colour|] == colour
      && r[|symbol| + |colour|..|r| - 1] == " [" + timestamp + "]:" && r[|r| - 1..] == " "
  {
    var symbol, colour := GetTextFormat(SymbolFormat(logType)), GetTextFormat(ColourFormat(logType));
    HeaderSplit(symbol, colour, timestamp);
    FourParts(symbol, colour, " [" + timestamp + "]:", " ");
    symbol + colour + " [" + timestamp + "]:" + " "
  }

  /** The four parts of a concatenation can be sliced back out of it. */
  lemma FourParts(a: string, b: string, c: string, d: string)
    ensures var r := (a + b) + c + d;
      && |r| == |a| + |b| + |c| + |d| && r[..|a|] == a && r[|a|..|a| + |b|] == b
      && r[|a| + |b|..|r| - |d|] == c && r[|r| - |d|..] == d
  {
    assert ((a + b) + c + d)[..|a| + |b|] == a + b;
  }

  /** log(message, logType), with `timestamp` the formatted LONDON_TIME. The switch names
      every LogType, so the initial empty string is never returned. */
  function Log(timestamp: string, message: string, logType: LogType): (r: string)
    ensures |r| == |Header(timestamp, logType)| + |message| + |ResetTextFormat|
    ensures r[..|Header(timestamp, logType)|] == Header(timestamp, logType)
    ensures r[|Header(timestamp, logType)|..|r| - |ResetTextFormat|] == message
    ensures r[|r| - |ResetTextFormat|..] == GetTextFormat(RESET)
  {
    var formattedMessage := match logType
      case SUCCESS =>
        GetTextFormat(SUCCESS_MESSAGE_SYMBOL) + GetTextFormat(BOLD_GREEN)
          + " [" + timestamp + "]:" + " " + message + GetTextFormat(RESET)
      case WARNING =>
        GetTextFormat(WARNING_MESSAGE_SYMBOL) + GetTextFormat(BOLD_ORANGE)
          + " [" + timestamp + "]:" + " " + message + GetTextFormat(RESET)
      case ERROR =>
        GetTextFormat(ERROR_MESSAGE_SYMBOL) + GetTextFormat(BOLD_RED)
          + " [" + timestamp + "]:" + " " + message + GetTextFormat(RESET)
      case INFO =>
        GetTextFormat(INFORMATIONAL_MESSAGE_SYMBOL) + GetTextFormat(BOLD_BLUE)
          + " [" + timestamp + "]:" + " " + message + GetTextFormat(RESET);
    assert formattedMessage == Header(timestamp, logType) + message + ResetTextFormat;
    ThreeParts(Header(timestamp, logType), message, ResetTextFormat);
    formattedMessage
  }

  /** The three parts of a concatenation can be sliced back out of it. */
  lemma ThreeParts(a: string, b: string, c: string)
    ensures var r := a + b + c;
      && |r| == |a| + |b| + |c| && r[..|a|] == a
      && r[|a|..|r| - |c|] == b && r[|r| - |c|..] == c
  {
  }

  /** A log line starts with its type's message symbol and is never empty. */
  lemma LogStartsWithSymbol(timestamp: string, message: string, logType: LogType)
    ensures var r := Log(timestamp, message, logType);
      var symbol := GetTextFormat(SymbolFormat(logType));
      |symbol| <= |r| && r[..|symbol|] == symbol
  {
    var r := Log(timestamp, message, logType);
    var h := Header(timestamp, logType);
    var symbol := GetTextFormat(SymbolFormat(logType));
    assert h[..|symbol|] == symbol;
    assert r[..|h|][..|symbol|] == r[..|symbol|];
  }

  /** The timestamp part is the same in every line written in one run: whatever the message
      and the type, it sits right after symbol and colour, bracketed. */
  lemma LogTimestampField(timestamp: string, message: string, logType: LogType)
    ensures var r := Log(timestamp, message, logType);
      var at := |GetTextFormat(SymbolFormat(logType)) + GetTextFormat(ColourFormat(logType))|;
      at + |timestamp| + 4 <= |r| && r[at..at + |timestamp| + 4] == " [" + timestamp + "]:"
  {
    var r := Log(timestamp, message, logType);
    var h := Header(timestamp, logType);
    var symbol, colour := GetTextFormat(SymbolFormat(logType)), GetTextFormat(ColourFormat(logType));
    var field := " [" + timestamp + "]:";
    HeaderSplit(symbol, colour, timestamp);
    assert h == (symbol + colour) + field + " ";
    SliceOfConcat(symbol + colour, field, " ");
    SliceOfPrefix(r, h, |symbol + colour|, |symbol + colour| + |field|);
  }

  /** A regrouping helper, associativity of `+` only: the header as its styling prefix,
      the timestamp field and a space. */
  lemma HeaderSplit(symbol: string, colour: string, timestamp: string)
    ensures symbol + colour + " [" + timestamp + "]:" + " " == (symbol + colour) + (" [" + timestamp + "]:") + " "
  {
  }

  /** The middle part of a three-part concatenation. */
  lemma SliceOfConcat(p: string, f: string, q: string)
    ensures (p + f + q)[|p|..|p| + |f|] == f
  {
  }

  /** A slice inside a known prefix is the same slice of that prefix. */
  lemma SliceOfPrefix(r: string, h: string, i: nat, j: nat)
    requires |h| <= |r| && r[..|h|] == h && i <= j <= |h|
    ensures r[i..j] == h[i..j]
  {
    assert r[..|h|][i..j] == r[i..j];
  }

  /** LONDON_TIME as getFormattedDateTime formats it. LONDON_TIME is read from the clock once,
      when the class is loaded, so this is one string for the whole run; which string is not
      modelled. */
  const LondonTime: string

  /** Every line log writes in one run carries the same bracketed timestamp field. */
  lemma LogTimestampShared(m1: string, t1: LogType, m2: string, t2: LogType)
    ensures var r1, r2 := Log(LondonTime, m1, t1), Log(LondonTime, m2, t2);
      var at1 := |GetTextFormat(SymbolFormat(t1)) + GetTextFormat(ColourFormat(t1))|;
      var at2 := |GetTextFormat(SymbolFormat(t2)) + GetTextFormat(ColourFormat(t2))|;
      && at1 + |LondonTime| + 4 <= |r1| && at2 + |LondonTime| + 4 <= |r2|
      && r1[at1..at1 + |LondonTime| + 4] == r2[at2..at2 + |LondonTime| + 4]
  {
    LogTimestampField(LondonTime, m1, t1);
    LogTimestampField(LondonTime, m2, t2);
  }

  /** Reads the LogType back from the symbol a line starts with. */
  function LogTypeOf(line: string): Option<LogType>
  {
    if |line| < 4 then None
    else if line[..4] == SuccessMessageSymbol then Some(SUCCESS)
    else if line[..4] == WarningMessageSymbol then Some(WARNING)
    else if line[..4] == ErrorMessageSymbol then Some(ERROR)
    else if |line| >= 6 && line[..6] == InformationalMessageSymbol then Some(INFO)
    else None
  }

  /** Reads the message back from a line of a known type and timestamp. */
  function MessageOf(line: string, timestamp: string, logType: LogType): Option<string>
  {
    var h := Header(timestamp, logType);
    if |h| + |ResetTextFormat| <= |line| && line[..|h|] == h
       && line[|line| - |ResetTextFormat|..] == ResetTextFormat
    then Some(line[|h|..|line| - |ResetTextFormat|])
    else None
  }

  /** A log line determines its type and its message: both can be read back. */
  lemma LogRoundTrip(timestamp: string, message: string, logType: LogType)
    ensures LogTypeOf(Log(timestamp, message, logType)) == Some(logType)
    ensures MessageOf(Log(timestamp, message, logType), timestamp, logType) == Some(message)
  {
    var r := Log(timestamp, message, logType);
    LogStartsWithSymbol(timestamp, message, logType);
    var symbol := GetTextFormat(SymbolFormat(logType));
    assert r[..|symbol|] == symbol;
    if |symbol| == 6 {
      assert r[..4] == symbol[..4];
    }
  }

  /** Two log lines written with the same timestamp are equal only if type and message are. */
  lemma LogInjective(timestamp: string, m1: string, t1: LogType, m2: string, t2: LogType)
    requires Log(timestamp, m1, t1) == Log(timestamp, m2, t2)
    ensures t1 == t2 && m1 == m2
  {
    LogRoundTrip(timestamp, m1, t1);
    LogRoundTrip(timestamp, m2, t2);
  }
}
