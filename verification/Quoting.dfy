/**
  Text printed for other programs to read: shell command lines in error messages, the base URL in the install
  scripts, and the `Content-Disposition` header of a download. Each is read back by a reader that follows the
  other program's own rules.
 */
module Quoting {
  import opened Wrappers

  // ----- A reader of shell words, by section 2.2 of the POSIX Shell Command Language

  datatype Mode = Plain | Single | Double

  predicate IsBlank(c: char) {
    c == ' ' || c == '\t'
  }

  /** Characters that mean something to the shell when they are not quoted. */
  predicate IsActive(c: char) {
    || c == '|' || c == '&' || c == ';' || c == '<' || c == '>' || c == '(' || c == ')' || c == '$' || c == '`'
    || c == '*' || c == '?' || c == '[' || c == ']' || c == '#' || c == '~' || c == '!' || c == '{' || c == '}'
    || c == '\n'
  }

  function EndWord(word: Option<string>, rest: Option<seq<string>>): Option<seq<string>> {
    if rest.None? then None
    else if word.Some? then Some([word.value] + rest.value)
    else rest
  }

  lemma LastWord(word: string)
    ensures Words("", Plain, Some(word)) == Some([word])
  {
    assert [word] + [] == [word];
  }

  function Grow(word: Option<string>, c: char): Option<string> {
    if word.Some? then Some(word.value + [c]) else Some([c])
  }

  function Begun(word: Option<string>): Option<string> {
    Some(if word.Some? then word.value else "")
  }

  /**
    The words of a command line read from `s` on, in the given quoting mode and with the word begun so far;
    `None` if a quote is left open or an unquoted character would be more than a word.
   */
  function Words(s: string, mode: Mode, word: Option<string>): Option<seq<string>>
    decreases |s|
  {
    if s == [] then
      if mode.Plain? then EndWord(word, Some([])) else None
    else
      var c, rest := s[0], s[1..];
      match mode
      case Plain =>
        if IsBlank(c) then EndWord(word, Words(rest, Plain, None))
        else if IsActive(c) then None
        else if c == '\'' then Words(rest, Single, Begun(word))
        else if c == '"' then Words(rest, Double, Begun(word))
        else if c == '\\' then
          if rest == [] || rest[0] == '\n' then None else Words(rest[1..], Plain, Grow(word, rest[0]))
        else Words(rest, Plain, Grow(word, c))
      case Single =>
        if c == '\'' then Words(rest, Plain, word) else Words(rest, Single, Grow(word, c))
      case Double =>
        if c == '"' then Words(rest, Plain, word)
        else if c == '$' || c == '`' || c == '\\' then None
        else Words(rest, Double, Grow(word, c))
  }

  // ----- Command lines in error messages

  predicate IsPlainChar(c: char) {
    || 'a' <= c <= 'z' || 'A' <= c <= 'Z' || '0' <= c <= '9'
    || c == '-' || c == '_' || c == '.' || c == '/' || c == ':' || c == '=' || c == '+'
  }

  /** Every quote replaced by the given text. */
  function ReplaceQuotes(s: string, escape: string): string {
    if s == [] then "" else (if s[0] == '\'' then escape else [s[0]]) + ReplaceQuotes(s[1..], escape)
  }

  predicate IsPlain(argument: string) {
    argument != [] && forall i :: 0 <= i < |argument| ==> IsPlainChar(argument[i])
  }

  function QuoteArgument(argument: string): string {
    if IsPlain(argument) then argument
    else "'" + ReplaceQuotes(argument, "'\\''") + "'"
  }

  function CommandLine(arguments: seq<string>): string {
    if arguments == [] then ""
    else if |arguments| == 1 then QuoteArgument(arguments[0])
    else QuoteArgument(arguments[0]) + " " + CommandLine(arguments[1..])
  }

  lemma PlainCharReads(c: char, rest: string, word: Option<string>)
    requires IsPlainChar(c)
    ensures Words([c] + rest, Plain, word) == Words(rest, Plain, Grow(word, c))
  {
    assert ([c] + rest)[1..] == rest;
  }

  lemma {:induction false} PlainArgumentReads(argument: string, rest: string, word: string)
    requires forall i :: 0 <= i < |argument| ==> IsPlainChar(argument[i])
    ensures Words(argument + rest, Plain, Some(word)) == Words(rest, Plain, Some(word + argument))
  {
    if argument == [] {
      assert argument + rest == rest && word + argument == word;
    } else {
      PlainCharReads(argument[0], (argument + rest)[1..], Some(word));
      assert argument + rest == [argument[0]] + (argument + rest)[1..];
      PlainArgumentReads(argument[1..], rest, word + [argument[0]]);
      assert (argument + rest)[1..] == argument[1..] + rest;
      assert word + [argument[0]] + argument[1..] == word + argument;
    }
  }

  /** The escape used in error messages: leave the quotes, an escaped quote, enter them again. */
  lemma EscapedQuoteReads(rest: string, word: string)
    ensures Words("'\\''" + rest, Single, Some(word)) == Words(rest, Single, Some(word + "'"))
  {
    var s := "'\\''" + rest;
    assert s[1..] == "\\''" + rest;
    assert s[1..][1..] == "''" + rest;
    assert ("''" + rest)[1..] == "'" + rest;
    assert ("'" + rest)[1..] == rest;
    assert Words("\\''" + rest, Plain, Some(word)) == Words("'" + rest, Plain, Some(word + "'"));
  }

  /** The escape used in the install script: leave the quotes, a quote in double quotes, enter them again. */
  lemma DoubleQuotedQuoteReads(rest: string, word: string)
    ensures Words("'\"'\"'" + rest, Single, Some(word)) == Words(rest, Single, Some(word + "'"))
  {
    var s := "'\"'\"'" + rest;
    assert s[1..] == "\"'\"'" + rest;
    assert ("\"'\"'" + rest)[1..] == "'\"'" + rest;
    assert ("'\"'" + rest)[1..] == "\"'" + rest;
    assert ("\"'" + rest)[1..] == "'" + rest;
    assert ("'" + rest)[1..] == rest;
    assert Words("\"'" + rest, Double, Some(word + "'")) == Words("'" + rest, Plain, Some(word + "'"));
    assert Words("'\"'" + rest, Double, Some(word)) == Words("\"'" + rest, Double, Some(word + "'"));
  }

  /** Either escape lets single quotes hold any text. */
  lemma {:induction false} QuotedTextReads(text: string, escape: string, rest: string, word: string)
    requires escape == "'\\''" || escape == "'\"'\"'"
    ensures Words(ReplaceQuotes(text, escape) + "'" + rest, Single, Some(word)) == Words(rest, Plain, Some(word + text))
  {
    if text == [] {
      assert ReplaceQuotes(text, escape) + "'" + rest == "'" + rest;
      assert ("'" + rest)[1..] == rest && word + text == word;
    } else {
      var tail := ReplaceQuotes(text[1..], escape) + "'" + rest;
      var next := word + [text[0]];
      assert next + text[1..] == word + text;
      QuotedTextReads(text[1..], escape, rest, next);
      if text[0] == '\'' {
        assert ReplaceQuotes(text, escape) + "'" + rest == escape + tail;
        EscapedQuoteReads(tail, word);
        DoubleQuotedQuoteReads(tail, word);
        assert word + "'" == next;
      } else {
        var s := ReplaceQuotes(text, escape) + "'" + rest;
        assert s == [text[0]] + tail;
        assert s[1..] == tail;
      }
    }
  }

  lemma OpeningQuoteReads(rest: string)
    ensures Words("'" + rest, Plain, None) == Words(rest, Single, Some(""))
  {
    var s := "'" + rest;
    assert s[0] == '\'' && s[1..] == rest;
    assert Begun(None) == Some("");
  }

  lemma QuotedReads(text: string, escape: string, rest: string)
    requires escape == "'\\''" || escape == "'\"'\"'"
    ensures Words("'" + ReplaceQuotes(text, escape) + "'" + rest, Plain, None) == Words(rest, Plain, Some(text))
  {
    var s := "'" + ReplaceQuotes(text, escape) + "'" + rest;
    assert s[1..] == ReplaceQuotes(text, escape) + "'" + rest;
    QuotedTextReads(text, escape, rest, "");
    assert "" + text == text;
    OpeningQuoteReads(s[1..]);
    assert s == "'" + s[1..];
  }

  lemma ArgumentReads(argument: string, rest: string)
    ensures Words(QuoteArgument(argument) + rest, Plain, None) == Words(rest, Plain, Some(argument))
  {
    if IsPlain(argument) {
      assert argument + rest == [argument[0]] + (argument[1..] + rest);
      PlainCharReads(argument[0], argument[1..] + rest, None);
      assert Grow(None, argument[0]) == Some([argument[0]]);
      PlainArgumentReads(argument[1..], rest, [argument[0]]);
      assert [argument[0]] + argument[1..] == argument;
    } else {
      QuotedReads(argument, "'\\''", rest);
    }
  }

  lemma BlankEndsWord(word: string, rest: string)
    ensures Words(" " + rest, Plain, Some(word)) == EndWord(Some(word), Words(rest, Plain, None))
  {
    assert (" " + rest)[1..] == rest;
  }

  /** The shell recovers exactly the printed argument list. */
  lemma {:induction false} CommandLineReadsBack(arguments: seq<string>)
    ensures Words(CommandLine(arguments), Plain, None) == Some(arguments)
  {
    if |arguments| == 1 {
      ArgumentReads(arguments[0], "");
      LastWord(arguments[0]);
      assert arguments == [arguments[0]];
      assert QuoteArgument(arguments[0]) + "" == QuoteArgument(arguments[0]);
    } else if |arguments| > 1 {
      var first, others := arguments[0], arguments[1..];
      CommandLineReadsBack(others);
      ArgumentReads(first, " " + CommandLine(others));
      BlankEndsWord(first, CommandLine(others));
      assert CommandLine(arguments) == QuoteArgument(first) + (" " + CommandLine(others));
      assert arguments == [first] + others;
    }
  }

  // ----- The command a shell makes of a line, by sections 2.4 and 2.9.1 of the POSIX Shell Command Language

  predicate IsNameStart(c: char) {
    'a' <= c <= 'z' || 'A' <= c <= 'Z' || c == '_'
  }

  /** A name, then an equals sign: at the front of a line this sets a variable. */
  predicate IsAssignment(s: string) {
    exists n :: 0 < n < |s| && s[n] == '=' && IsNameStart(s[0])
                && forall i :: 0 <= i < n ==> IsNameStart(s[i]) || '0' <= s[i] <= '9'
  }

  predicate IsReserved(word: string) {
    || word == "!" || word == "{" || word == "}" || word == "case" || word == "do" || word == "done" || word == "elif"
    || word == "else" || word == "esac" || word == "fi" || word == "for" || word == "if" || word == "in"
    || word == "then" || word == "until" || word == "while"
  }

  function FirstToken(s: string): string {
    if s == [] || IsBlank(s[0]) then "" else [s[0]] + FirstToken(s[1..])
  }

  /** The line begins with something other than the name of a command. */
  predicate OpensConstruct(line: string) {
    IsAssignment(line) || IsReserved(FirstToken(line))
  }

  /** The command and its arguments, if the line is a simple command and nothing else. */
  function Command(line: string): Option<seq<string>> {
    if OpensConstruct(line) then None else Words(line, Plain, None)
  }

  lemma {:induction false} FirstTokenIs(word: string, rest: string)
    requires forall i :: 0 <= i < |word| ==> !IsBlank(word[i])
    requires rest == [] || IsBlank(rest[0])
    ensures FirstToken(word + rest) == word
  {
    if word == [] {
      assert word + rest == rest;
    } else {
      FirstTokenIs(word[1..], rest);
      assert (word + rest)[1..] == word[1..] + rest;
    }
  }

  /** What follows a plain word does not make it an assignment or unmake it. */
  lemma AssignmentIff(word: string, rest: string)
    requires IsPlain(word) && (rest == [] || rest[0] == ' ')
    ensures IsAssignment(word + rest) <==> IsAssignment(word)
  {
    var line := word + rest;
    assert forall i :: 0 <= i < |word| ==> line[i] == word[i];
    assert rest != [] ==> line[|word|] == ' ';
  }

  /** A quoted word begins with a quote, which no name and no reserved word does. */
  lemma QuotedOpensNothing(line: string)
    requires line != [] && line[0] == '\''
    ensures !OpensConstruct(line)
  {
    assert FirstToken(line)[0] == '\'';
  }

  /** Only an unquoted first argument can make the line something else than a command. */
  lemma OpensConstructIff(argument: string, rest: string)
    requires rest == [] || rest[0] == ' '
    ensures OpensConstruct(QuoteArgument(argument) + rest) <==> IsPlain(argument) && OpensConstruct(argument)
  {
    if IsPlain(argument) {
      AssignmentIff(argument, rest);
      FirstTokenIs(argument, rest);
      FirstTokenIs(argument, "");
      assert argument + "" == argument;
    } else {
      QuotedOpensNothing(QuoteArgument(argument) + rest);
    }
  }

  /** A shell runs exactly the printed command unless its name, printed plain, is an assignment or a reserved word. */
  lemma CommandReadsBackIff(arguments: seq<string>)
    requires arguments != []
    ensures Command(CommandLine(arguments)) == Some(arguments) <==>
            !(IsPlain(arguments[0]) && OpensConstruct(arguments[0]))
  {
    CommandLineReadsBack(arguments);
    var rest := if |arguments| == 1 then "" else " " + CommandLine(arguments[1..]);
    assert CommandLine(arguments) == QuoteArgument(arguments[0]) + rest;
    OpensConstructIff(arguments[0], rest);
  }

  // ----- The base URL in the install scripts

  function TrimSlashes(s: string): string {
    if s != [] && s[|s| - 1] == '/' then TrimSlashes(s[..|s| - 1]) else s
  }

  function Slashes(n: nat): string {
    if n == 0 then "" else Slashes(n - 1) + "/"
  }

  /** Only slashes at the end are trimmed, and all of them. */
  lemma {:induction false} TrimSlashesIs(s: string)
    ensures var t := TrimSlashes(s);
            |t| <= |s| && s == t + Slashes(|s| - |t|) && (t == [] || t[|t| - 1] != '/')
  {
    if s != [] && s[|s| - 1] == '/' {
      TrimSlashesIs(s[..|s| - 1]);
      assert s == s[..|s| - 1] + "/";
    }
  }

  function PosixBaseUrl(url: string): string {
    "'" + ReplaceQuotes(TrimSlashes(url), "'\"'\"'") + "'"
  }

  /** The POSIX install script sees exactly the trimmed base URL, as one word. */
  lemma PosixBaseUrlReadsBack(url: string)
    ensures Words(PosixBaseUrl(url), Plain, None) == Some([TrimSlashes(url)])
  {
    QuotedReads(TrimSlashes(url), "'\"'\"'", "");
    LastWord(TrimSlashes(url));
    assert PosixBaseUrl(url) == "'" + ReplaceQuotes(TrimSlashes(url), "'\"'\"'") + "'" + "";
  }

  function WindowsBaseUrl(url: string): string {
    "'" + ReplaceQuotes(TrimSlashes(url), "''") + "'"
  }

  /** Typographic single quotes, which PowerShell takes for the plain one. */
  predicate IsCurlyQuote(c: char) {
    '\U{2018}' <= c <= '\U{201b}'
  }

  predicate IsPowerShellQuote(c: char) {
    c == '\'' || IsCurlyQuote(c)
  }

  /** PowerShell's single-quoted text after the opening quote: of two quotes the second stands, a single one ends it. */
  function PowerShellText(s: string): Option<string> {
    if s == [] then None
    else if !IsPowerShellQuote(s[0]) then
      var rest := PowerShellText(s[1..]);
      if rest.None? then None else Some([s[0]] + rest.value)
    else if |s| == 1 then Some("")
    else if IsPowerShellQuote(s[1]) then
      var rest := PowerShellText(s[2..]);
      if rest.None? then None else Some([s[1]] + rest.value)
    else None
  }

  predicate NoCurlyQuote(s: string) {
    forall i :: 0 <= i < |s| ==> !IsCurlyQuote(s[i])
  }

  lemma CharacterReads(c: char, rest: string, text: string)
    requires !IsCurlyQuote(c) && PowerShellText(rest) == Some(text)
    ensures PowerShellText((if c == '\'' then "''" else [c]) + rest) == Some([c] + text)
  {
    if c == '\'' {
      assert ("''" + rest)[2..] == rest;
    } else {
      assert ([c] + rest)[1..] == rest;
    }
  }

  lemma {:induction false} PowerShellReads(text: string)
    requires NoCurlyQuote(text)
    ensures PowerShellText(ReplaceQuotes(text, "''") + "'") == Some(text)
  {
    if text != [] {
      PowerShellReads(text[1..]);
      var tail := ReplaceQuotes(text[1..], "''") + "'";
      CharacterReads(text[0], tail, text[1..]);
      assert text == [text[0]] + text[1..];
      assert ReplaceQuotes(text, "''") + "'" == (if text[0] == '\'' then "''" else [text[0]]) + tail;
    }
  }

  /** How many quotes: the plain ones, or the typographic ones too. */
  function Quotes(s: string, curly: bool): nat {
    if s == [] then 0
    else (if s[0] == '\'' || (curly && IsCurlyQuote(s[0])) then 1 else 0) + Quotes(s[1..], curly)
  }

  /** The reader consumes two characters for each quote it yields, one for any other, and the closing quote. */
  lemma {:induction false} PowerShellConsumes(s: string)
    requires PowerShellText(s).Some?
    ensures |s| == |PowerShellText(s).value| + Quotes(PowerShellText(s).value, true) + 1
    decreases |s|
  {
    var text := PowerShellText(s).value;
    if !IsPowerShellQuote(s[0]) {
      PowerShellConsumes(s[1..]);
      assert text[1..] == PowerShellText(s[1..]).value;
    } else if |s| > 1 {
      PowerShellConsumes(s[2..]);
      assert text[1..] == PowerShellText(s[2..]).value;
    }
  }

  /** The printer doubles the plain quotes only. */
  lemma {:induction false} DoubledLength(text: string)
    ensures |ReplaceQuotes(text, "''")| == |text| + Quotes(text, false)
    ensures Quotes(text, false) <= Quotes(text, true)
    ensures Quotes(text, false) == Quotes(text, true) ==> NoCurlyQuote(text)
  {
    if text != [] {
      DoubledLength(text[1..]);
    }
  }

  /** So does the PowerShell one, exactly when the URL has no typographic quote. */
  lemma WindowsBaseUrlReadsBackIff(url: string)
    ensures WindowsBaseUrl(url)[0] == '\''
    ensures PowerShellText(WindowsBaseUrl(url)[1..]) == Some(TrimSlashes(url)) <==> NoCurlyQuote(TrimSlashes(url))
  {
    var text := TrimSlashes(url);
    var s := ReplaceQuotes(text, "''") + "'";
    assert WindowsBaseUrl(url)[1..] == s;
    if NoCurlyQuote(text) {
      PowerShellReads(text);
    }
    if PowerShellText(s) == Some(text) {
      PowerShellConsumes(s);
      DoubledLength(text);
    }
  }

  // ----- The Content-Disposition header

  /** The characters RFC 8187 lets stand for themselves. */
  predicate IsAttrChar(c: char) {
    || 'a' <= c <= 'z' || 'A' <= c <= 'Z' || '0' <= c <= '9'
    || c in "!#$&+-.^_`|~"
  }

  function HexDigit(n: nat): char
    requires n < 16
  {
    if n < 10 then ('0' as int + n) as char else ('A' as int + n - 10) as char
  }

  function HexValue(c: char): Option<nat> {
    if '0' <= c <= '9' then Some((c - '0') as nat)
    else if 'A' <= c <= 'F' then Some((c - 'A') as nat + 10)
    else if 'a' <= c <= 'f' then Some((c - 'a') as nat + 10)
    else None
  }

  function EncodeByte(b: Byte): string {
    if b < 128 && IsAttrChar(b as char) then [b as char] else ['%', HexDigit(b / 16), HexDigit(b % 16)]
  }

  function PercentEncode(bytes: Bytes): string {
    if bytes == [] then "" else EncodeByte(bytes[0]) + PercentEncode(bytes[1..])
  }

  /** Percent-decoding by section 3.2 of RFC 8187. */
  function PercentDecode(s: string): Option<Bytes> {
    if s == [] then Some([])
    else if s[0] == '%' then
      if |s| < 3 || HexValue(s[1]).None? || HexValue(s[2]).None? then None
      else
        var rest := PercentDecode(s[3..]);
        if rest.None? then None else Some([(16 * HexValue(s[1]).value + HexValue(s[2]).value) as Byte] + rest.value)
    else if !IsAttrChar(s[0]) then None
    else
      var rest := PercentDecode(s[1..]);
      if rest.None? then None else Some([s[0] as int] + rest.value)
  }

  lemma EncodedByteDecodes(b: Byte, rest: string)
    ensures PercentDecode(EncodeByte(b) + rest) ==
            if PercentDecode(rest).None? then None else Some([b] + PercentDecode(rest).value)
  {
    var s := EncodeByte(b) + rest;
    if b < 128 && IsAttrChar(b as char) {
      assert s[1..] == rest;
    } else {
      assert s[3..] == rest;
      assert HexValue(HexDigit(b / 16)) == Some(b / 16) && HexValue(HexDigit(b % 16)) == Some(b % 16);
    }
  }

  /** The decoder recovers the bytes of any filename. */
  lemma {:induction false} DecodeInvertsEncode(bytes: Bytes)
    ensures PercentDecode(PercentEncode(bytes)) == Some(bytes)
  {
    if bytes != [] {
      DecodeInvertsEncode(bytes[1..]);
      EncodedByteDecodes(bytes[0], PercentEncode(bytes[1..]));
      assert bytes == [bytes[0]] + bytes[1..];
    }
  }

  predicate IsFallbackChar(c: char) {
    ' ' <= c <= '~' && c != '"' && c != '\\'
  }

  function FallbackChar(c: char): char {
    if ' ' <= c <= '!' || '#' <= c <= '[' || ']' <= c <= '~' then c else '_'
  }

  function SafeName(s: string): (safe: string)
    ensures |safe| == |s|
    ensures forall i :: 0 <= i < |s| ==> safe[i] == FallbackChar(s[i])
  {
    seq(|s|, i requires 0 <= i < |s| => FallbackChar(s[i]))
  }

  predicate AllBlank(s: string) {
    forall i :: 0 <= i < |s| ==> s[i] == ' '
  }

  /** The quoted fallback name. */
  function Fallback(filename: string): (name: string)
    ensures 0 < |name| <= 150 && !AllBlank(name)
    ensures forall i :: 0 <= i < |name| ==> IsFallbackChar(name[i])
  {
    var safe := SafeName(if |filename| <= 150 then filename else filename[..150]);
    if AllBlank(safe) then assert "download"[0] != ' '; "download" else safe
  }

  /** Exactly the fallback: the first 150 characters, unsafe ones replaced by `_`, unless all of them are blank. */
  lemma FallbackIs(filename: string)
    ensures var n := Min(150, |filename|);
            if forall i :: 0 <= i < n ==> filename[i] == ' ' then Fallback(filename) == "download"
            else |Fallback(filename)| == n
                 && forall i :: 0 <= i < n ==>
                      Fallback(filename)[i] == if IsFallbackChar(filename[i]) then filename[i] else '_'
  {
  }

  /** Characters that may stand for themselves do. */
  lemma {:induction false} AttrCharsStand(bytes: Bytes)
    requires forall i :: 0 <= i < |bytes| ==> bytes[i] < 128 && IsAttrChar(bytes[i] as char)
    ensures |PercentEncode(bytes)| == |bytes|
    ensures forall i :: 0 <= i < |bytes| ==> PercentEncode(bytes)[i] == bytes[i] as char
  {
    if bytes != [] {
      AttrCharsStand(bytes[1..]);
    }
  }

  /** A short enough name of safe characters is its own fallback, unless it is all blanks. */
  lemma SafeNameIsKept(filename: string)
    requires |filename| <= 150 && forall i :: 0 <= i < |filename| ==> IsFallbackChar(filename[i])
    requires !AllBlank(filename)
    ensures Fallback(filename) == filename
  {
    assert SafeName(filename) == filename;
  }
}
