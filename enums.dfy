/** The enumerations the utilities switch over. Constructors keep the Java constant names,
    because `toString()` of a Java enum constant is that name and the model uses it. */
module Enums {

  /** The browsers a test can ask for. */
  datatype BrowserType =
    | CHROME
    | FIREFOX
    | EDGE
    | SAFARI
    | EXPLORER
    | CHROME_HEADLESS
    | FIREFOX_HEADLESS
    | EDGE_HEADLESS
  {
    /** `toString()` of the enum constant: its declared name. */
    function Name(): (s: string)
      ensures |s| > 0
      ensures forall i :: 0 <= i < |s| ==> 'A' <= s[i] <= 'Z' || s[i] == '_'
    {
      match this
      case CHROME => "CHROME"
      case FIREFOX => "FIREFOX"
      case EDGE => "EDGE"
      case SAFARI => "SAFARI"
      case EXPLORER => "EXPLORER"
      case CHROME_HEADLESS => "CHROME_HEADLESS"
      case FIREFOX_HEADLESS => "FIREFOX_HEADLESS"
      case EDGE_HEADLESS => "EDGE_HEADLESS"
    }
  }

  /** Different browser types have different names, so the stored name identifies the type. */
  lemma BrowserNameInjective(a: BrowserType, b: BrowserType)
    requires a.Name() == b.Name()
    ensures a == b
  {
  }

  /** The console styles: message symbols, the reset code, and ANSI text colours in four
      styles (plain, bold, underlined, background). */
  datatype TextFormat =
    | RESET
    | SUCCESS_MESSAGE_SYMBOL | WARNING_MESSAGE_SYMBOL | ERROR_MESSAGE_SYMBOL
    | INFORMATIONAL_MESSAGE_SYMBOL | DEBUG_MESSAGE_SYMBOL | FATAL_MESSAGE_SYMBOL
    | COLOUR_BLACK | COLOUR_RED | COLOUR_GREEN | COLOUR_YELLOW | COLOUR_BLUE | COLOUR_PURPLE
    | COLOUR_CYAN | COLOUR_WHITE | COLOUR_ORANGE | COLOUR_PINK | COLOUR_LIME
    | BOLD_BLACK | BOLD_RED | BOLD_GREEN | BOLD_YELLOW | BOLD_BLUE | BOLD_PURPLE
    | BOLD_CYAN | BOLD_WHITE | BOLD_ORANGE | BOLD_PINK | BOLD_LIME
    | UNDERLINE_BLACK | UNDERLINE_RED | UNDERLINE_GREEN | UNDERLINE_YELLOW | UNDERLINE_BLUE
    | UNDERLINE_PURPLE | UNDERLINE_CYAN | UNDERLINE_WHITE | UNDERLINE_ORANGE | UNDERLINE_PINK
    | UNDERLINE_LIME
    | BACKGROUND_BLACK | BACKGROUND_RED | BACKGROUND_GREEN | BACKGROUND_YELLOW
    | BACKGROUND_BLUE | BACKGROUND_PURPLE | BACKGROUND_CYAN | BACKGROUND_WHITE
    | BACKGROUND_ORANGE | BACKGROUND_PINK | BACKGROUND_LIME
  {
    /** The six message symbols, the formats that are not ANSI escape sequences. */
    predicate IsMessageSymbol()
    {
      || this == SUCCESS_MESSAGE_SYMBOL || this == WARNING_MESSAGE_SYMBOL
      || this == ERROR_MESSAGE_SYMBOL || this == INFORMATIONAL_MESSAGE_SYMBOL
      || this == DEBUG_MESSAGE_SYMBOL || this == FATAL_MESSAGE_SYMBOL
    }
  }

  /** The levels of console message that ConsoleUtil.log formats. */
  datatype LogType = SUCCESS | WARNING | ERROR | INFO
}
