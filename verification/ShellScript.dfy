/**
 * The one-line script that feeds content to a command run as another user, and how a shell
 * reads it: by the quoting rules of sections 2.2.1 and 2.2.2 of the POSIX Shell Command Language.
 */
module ShellScript {
  import opened Wrappers
  import opened Octets
  import opened Text
  import Base64

  // ----- Building the script -----

  /** Each single quote becomes: close the quotes, an escaped quote, open them again. */
  function EscapeQuotes(s: string): string {
    if s == "" then ""
    else (if s[0] == '\'' then "'\\''" else [s[0]]) + EscapeQuotes(s[1..])
  }

  function ShellEscape(s: string): string {
    "'" + EscapeQuotes(s) + "'"
  }

  function Escaped(args: seq<string>): seq<string> {
    if args == [] then [] else [ShellEscape(args[0])] + Escaped(args[1..])
  }

  function Script(args: seq<string>, content: Bytes): string {
    "printf '" + Base64.Encode(content) + "' | base64 -d | " + Spaced(Escaped(args))
  }

  // ----- Reading the script -----

  datatype Token = Word(text: string) | Pipe

  /** Characters that stand for themselves outside quotes and start no word of their own kind. */
  predicate IsPlain(c: char) {
    '0' <= c <= '9' || 'a' <= c <= 'z' || 'A' <= c <= 'Z' || c in "+-/._,:@%"
  }

  function Ended(word: Option<string>): seq<Token> {
    if word.Some? then [Word(word.value)] else []
  }

  function Grown(word: Option<string>, c: string): Option<string> {
    Some((if word.Some? then word.value else "") + c)
  }

  /**
   * Token recognition. `word` is the word being read, if one has started; `quoted` says whether
   * single quotes are open. None: unfinished quotes, or a character with a meaning outside quotes
   * that these rules do not cover.
   */
  function Lex(s: string, word: Option<string>, quoted: bool): Option<seq<Token>> {
    if s == "" then
      if quoted then None else Some(Ended(word))
    else if quoted then
      if s[0] == '\'' then Lex(s[1..], word, false) else Lex(s[1..], Grown(word, [s[0]]), true)
    else if s[0] == '\'' then Lex(s[1..], Grown(word, ""), true)
    else if s[0] == '\\' then
      if |s| == 1 then None
      else if s[1] == '\n' then Lex(s[2..], word, false)
      else Lex(s[2..], Grown(word, [s[1]]), false)
    else if s[0] == ' ' then Prepend(Ended(word), Lex(s[1..], None, false))
    else if s[0] == '|' then Prepend(Ended(word) + [Pipe], Lex(s[1..], None, false))
    else if IsPlain(s[0]) then Lex(s[1..], Grown(word, [s[0]]), false)
    else None
  }

  function Prepend(ts: seq<Token>, rest: Option<seq<Token>>): Option<seq<Token>> {
    if rest.Some? then Some(ts + rest.value) else None
  }

  /** The commands of a pipeline, each at least one word long; `words` are those of the first so far. */
  function Commands(ts: seq<Token>, words: seq<string>): Option<seq<seq<string>>> {
    if ts == [] then
      if words == [] then None else Some([words])
    else if ts[0].Word? then Commands(ts[1..], words + [ts[0].text])
    else if words == [] then None
    else
      var rest := Commands(ts[1..], []);
      if rest.Some? then Some([words] + rest.value) else None
  }

  function Parse(script: string): Option<seq<seq<string>>> {
    var ts := Lex(script, None, false);
    if ts.Some? then Commands(ts.value, []) else None
  }

  // ----- Running the pipeline -----

  /** printf with a single argument: its output, if the format asks for no conversion or escape. */
  function Printf(format: string): Option<string> {
    if '%' in format || '\\' in format then None else Some(format)
  }

  datatype Delivery = Delivery(argv: seq<string>, input: Bytes)

  /** What the last command of `printf X | base64 -d | command` is started with. */
  function Delivered(commands: seq<seq<string>>): Option<Delivery> {
    if |commands| == 3 && |commands[0]| == 2 && commands[0][0] == "printf" && commands[1] == ["base64", "-d"] then
      var text := Printf(commands[0][1]);
      var input := if text.Some? then Base64.Decode(text.value) else None;
      if input.Some? then Some(Delivery(commands[2], input.value)) else None
    else None
  }

  // ----- Quoting survives reading -----

  lemma LexQuoted(c: char, s: string, word: Option<string>)
    requires c != '\''
    ensures Lex([c] + s, word, true) == Lex(s, Grown(word, [c]), true)
  {
    assert ([c] + s)[1..] == s;
  }

  lemma LexEscapedQuote(s: string, word: Option<string>)
    requires word.Some?
    ensures Lex("'\\''" + s, word, true) == Lex(s, Grown(word, "'"), true)
  {
    var s1, s2, s3 := "\\''" + s, "''" + s, "'" + s;
    assert ("'\\''" + s)[0] == '\'' && ("'\\''" + s)[1..] == s1;
    assert s1[0] == '\\' && s1[1] == '\'' && s1[2..] == s3;
    assert s3[0] == '\'' && s3[1..] == s;
    assert Lex("'\\''" + s, word, true) == Lex(s1, word, false);
    assert Lex(s1, word, false) == Lex(s3, Grown(word, "'"), false);
    assert Lex(s3, Grown(word, "'"), false) == Lex(s, Grown(Grown(word, "'"), ""), true);
    assert word.value + "'" + "" == word.value + "'";
    assert Grown(Grown(word, "'"), "") == Grown(word, "'");
  }

  /** Inside open quotes, an escaped string reads as itself, whatever characters it holds. */
  lemma {:induction false} LexEscapeQuotes(s: string, rest: string, word: string)
    ensures Lex(EscapeQuotes(s) + rest, Some(word), true) == Lex(rest, Some(word + s), true)
  {
    hide Lex;
    if s == "" {
      assert EscapeQuotes(s) + rest == rest && word + s == word;
    } else {
      var tail := EscapeQuotes(s[1..]);
      LexEscapeQuotes(s[1..], rest, word + [s[0]]);
      assert word + [s[0]] + s[1..] == word + s;
      if s[0] == '\'' {
        Regroup("'\\''", tail, rest);
        LexEscapedQuote(tail + rest, Some(word));
      } else {
        Regroup([s[0]], tail, rest);
        LexQuoted(s[0], tail + rest, Some(word));
      }
    }
  }

  /** An escaped argument is exactly one word, and that word is the argument. */
  lemma LexShellEscape(arg: string, rest: string)
    ensures Lex(ShellEscape(arg) + rest, None, false) == Lex(rest, Some(arg), false)
  {
    var body := EscapeQuotes(arg);
    var after := "'" + rest;
    assert ShellEscape(arg) + rest == "'" + (body + after);
    assert ("'" + (body + after))[1..] == body + after;
    LexEscapeQuotes(arg, after, "");
    assert "" + arg == arg && "" + "" == "";
    assert after[0] == '\'' && after[1..] == rest;
    assert Lex("'" + (body + after), None, false) == Lex(body + after, Some(""), true);
    assert Lex(after, Some(arg), true) == Lex(rest, Some(arg), false);
  }

  function WordsOf(args: seq<string>): seq<Token> {
    if args == [] then [] else [Word(args[0])] + WordsOf(args[1..])
  }

  lemma LexSpace(s: string, word: Option<string>)
    ensures Lex(" " + s, word, false) == Prepend(Ended(word), Lex(s, None, false))
  {
    assert (" " + s)[1..] == s;
  }

  lemma {:induction false} LexArguments(args: seq<string>)
    ensures Lex(Spaced(Escaped(args)), None, false) == Some(WordsOf(args))
  {
    hide ShellEscape;
    if args == [] {
    } else if |args| == 1 {
      assert Escaped(args) == [ShellEscape(args[0])];
      assert ShellEscape(args[0]) + "" == ShellEscape(args[0]);
      LexShellEscape(args[0], "");
      assert WordsOf(args) == [Word(args[0])];
    } else {
      var rest := Spaced(Escaped(args[1..]));
      LexArguments(args[1..]);
      assert Escaped(args)[1..] == Escaped(args[1..]) && |Escaped(args)| > 1;
      Regroup(ShellEscape(args[0]), " ", rest);
      LexShellEscape(args[0], " " + rest);
      LexSpace(rest, Some(args[0]));
      hide Lex;
    }
  }

  /** A run of plain characters extends the word. */
  lemma {:induction false} LexPlain(w: string, rest: string, word: Option<string>)
    requires w != "" && forall i :: 0 <= i < |w| ==> IsPlain(w[i])
    ensures Lex(w + rest, word, false) == Lex(rest, Grown(word, w), false)
  {
    assert IsPlain(w[0]);
    LexOnePlain(w[0], w[1..] + rest, word);
    hide Lex, IsPlain;
    Regroup([w[0]], w[1..], rest);
    assert [w[0]] + w[1..] == w;
    if |w| == 1 {
      assert w[1..] + rest == rest;
    } else {
      LexPlain(w[1..], rest, Grown(word, [w[0]]));
      Regroup(if word.Some? then word.value else "", [w[0]], w[1..]);
    }
  }

  lemma LexOnePlain(c: char, s: string, word: Option<string>)
    requires IsPlain(c)
    ensures Lex([c] + s, word, false) == Lex(s, Grown(word, [c]), false)
  {
    assert ([c] + s)[1..] == s;
  }

  lemma LexPipe(s: string, word: Option<string>)
    ensures Lex("|" + s, word, false) == Prepend(Ended(word) + [Pipe], Lex(s, None, false))
  {
    assert ("|" + s)[1..] == s;
  }

  /** A plain word and the space behind it. */
  lemma LexWord(w: string, rest: string)
    requires w != "" && forall i :: 0 <= i < |w| ==> IsPlain(w[i])
    ensures Lex(w + (" " + rest), None, false) == Prepend([Word(w)], Lex(rest, None, false))
  {
    LexPlain(w, " " + rest, None);
    LexSpace(rest, Some(w));
    assert "" + w == w;
    hide Lex;
  }

  lemma PrependTwice(a: seq<Token>, b: seq<Token>, rest: Option<seq<Token>>)
    ensures Prepend(a, Prepend(b, rest)) == Prepend(a + b, rest)
  {
    if rest.Some? {
      Regroup(a, b, rest.value);
    }
  }

  /** `word | rest` behind a word that has ended. */
  lemma LexPipeBetween(rest: string)
    ensures Lex("|" + (" " + rest), None, false) == Prepend([Pipe], Lex(rest, None, false))
  {
    LexPipe(" " + rest, None);
    LexSpace(rest, None);
    PrependTwice([Pipe], [], Lex(rest, None, false));
    assert [] + [Pipe] == [Pipe] && [Pipe] + [] == [Pipe];
    hide Lex;
  }

  lemma {:induction false} EscapeInert(s: string)
    requires '\'' !in s
    ensures EscapeQuotes(s) == s
  {
    if s != "" {
      EscapeInert(s[1..]);
    }
  }

  lemma Base64Inert(content: Bytes)
    ensures '\'' !in Base64.Encode(content) && '%' !in Base64.Encode(content) && '\\' !in Base64.Encode(content)
  {
    Base64.EncodeIsBase64(content);
    hide Base64.Encode;
  }

  const DECODER: seq<Token> := [Pipe, Word("base64"), Word("-d"), Pipe]

  lemma LexDecoder(rest: string)
    ensures Lex(" " + ("|" + (" " + ("base64" + (" " + ("-d" + (" " + ("|" + (" " + rest)))))))), None, false)
         == Prepend(DECODER, Lex(rest, None, false))
  {
    hide Lex;
    var r1 := "|" + (" " + rest);
    var r2 := "-d" + (" " + r1);
    var r3 := "base64" + (" " + r2);
    var end := Lex(rest, None, false);
    LexSpace("|" + (" " + r3), None);
    LexPipeBetween(r3);
    LexWord("base64", r2);
    LexWord("-d", r1);
    LexPipeBetween(rest);
    PrependTwice([Word("-d")], [Pipe], end);
    PrependTwice([Word("base64")], [Word("-d"), Pipe], end);
    PrependTwice([Pipe], [Word("base64"), Word("-d"), Pipe], end);
    PrependTwice([], DECODER, end);
    assert [Word("-d")] + [Pipe] == [Word("-d"), Pipe];
    assert [Word("base64")] + [Word("-d"), Pipe] == [Word("base64"), Word("-d"), Pipe];
    assert [Pipe] + [Word("base64"), Word("-d"), Pipe] == DECODER;
    assert [] + DECODER == DECODER;
  }

  lemma ScriptSplits(args: seq<string>, content: Bytes)
    ensures var b64, tail := Base64.Encode(content), Spaced(Escaped(args));
            Script(args, content) ==
            "printf" + (" " + (ShellEscape(b64)
            + (" " + ("|" + (" " + ("base64" + (" " + ("-d" + (" " + ("|" + (" " + tail)))))))))))
  {
    Base64Inert(content);
    hide Base64.Encode, Escaped, Spaced;
    var b64, tail := Base64.Encode(content), Spaced(Escaped(args));
    EscapeInert(b64);
    assert ShellEscape(b64) == "'" + b64 + "'";
    hide EscapeQuotes, ShellEscape;
    assert " | base64 -d | " + tail == " " + ("|" + (" " + ("base64" + (" " + ("-d" + (" " + ("|" + (" " + tail))))))));
    assert "printf '" == "printf" + (" " + "'");
    assert "' | base64 -d | " == "'" + " | base64 -d | ";
    SplitScript("printf", " ", "'", b64, " | base64 -d | ", tail);
  }

  lemma SplitScript(a: string, b: string, q: string, m: string, d: string, t: string)
    ensures a + (b + q) + m + (q + d) + t == a + (b + (q + m + q + (d + t)))
  {
  }

  /** The tokens of the script: fixed words, the base64 text, and the arguments. */
  lemma LexScript(args: seq<string>, content: Bytes)
    ensures Lex(Script(args, content), None, false)
         == Some([Word("printf"), Word(Base64.Encode(content))] + DECODER + WordsOf(args))
  {
    hide Lex, Script, ShellEscape, Escaped, WordsOf, Base64.Encode, Spaced;
    var b64, tail := Base64.Encode(content), Spaced(Escaped(args));
    ScriptSplits(args, content);
    var decoder := "|" + (" " + ("base64" + (" " + ("-d" + (" " + ("|" + (" " + tail)))))));
    LexWord("printf", ShellEscape(b64) + (" " + decoder));
    LexShellEscape(b64, " " + decoder);
    LexSpace(decoder, Some(b64));
    LexSpace(decoder, None);
    LexDecoder(tail);
    LexArguments(args);
    DecoderTokens(b64, Lex(decoder, None, false), WordsOf(args));
  }

  lemma DecoderTokens(b64: string, decoder: Option<seq<Token>>, args: seq<Token>)
    requires Prepend([], decoder) == Prepend(DECODER, Some(args))
    ensures Prepend([Word("printf")], Prepend([Word(b64)], decoder))
         == Some([Word("printf"), Word(b64)] + DECODER + args)
  {
    assert decoder.Some? && [] + decoder.value == decoder.value;
    Regroup([Word("printf")], [Word(b64)], DECODER + args);
    assert [Word("printf")] + [Word(b64)] == [Word("printf"), Word(b64)];
    Regroup([Word("printf"), Word(b64)], DECODER, args);
  }

  lemma {:induction false} CommandOfWords(args: seq<string>, words: seq<string>)
    ensures Commands(WordsOf(args), words) == if words + args == [] then None else Some([words + args])
  {
    if args == [] {
      assert words + args == words;
    } else {
      CommandOfWords(args[1..], words + [args[0]]);
      assert words + [args[0]] + args[1..] == words + args;
      assert WordsOf(args)[1..] == WordsOf(args[1..]);
    }
  }

  lemma CommandsWord(w: string, ts: seq<Token>, words: seq<string>)
    ensures Commands([Word(w)] + ts, words) == Commands(ts, words + [w])
  {
    assert ([Word(w)] + ts)[1..] == ts;
  }

  lemma CommandsPipe(ts: seq<Token>, words: seq<string>)
    requires words != []
    ensures Commands([Pipe] + ts, words)
         == if Commands(ts, []).Some? then Some([words] + Commands(ts, []).value) else None
  {
    assert ([Pipe] + ts)[1..] == ts;
  }

  lemma CommandsOfScript(b64: string, args: seq<string>)
    ensures Commands([Word("printf"), Word(b64)] + DECODER + WordsOf(args), [])
         == if args == [] then None else Some([["printf", b64], ["base64", "-d"], args])
  {
    hide Commands, WordsOf;
    var end := WordsOf(args);
    var decode := [Word("base64")] + ([Word("-d")] + ([Pipe] + end));
    CommandOfWords(args, []);
    CommandsPipe(end, ["base64", "-d"]);
    CommandsWord("-d", [Pipe] + end, ["base64"]);
    CommandsWord("base64", [Word("-d")] + ([Pipe] + end), []);
    CommandsPipe(decode, ["printf", b64]);
    CommandsWord(b64, [Pipe] + decode, ["printf"]);
    CommandsWord("printf", [Word(b64)] + ([Pipe] + decode), []);
    assert [] + args == args && [] + ["base64"] == ["base64"] && [] + ["printf"] == ["printf"];
    assert ["base64"] + ["-d"] == ["base64", "-d"] && ["printf"] + [b64] == ["printf", b64];
    assert [["base64", "-d"]] + [args] == [["base64", "-d"], args];
    assert [["printf", b64]] + [["base64", "-d"], args] == [["printf", b64], ["base64", "-d"], args];
    assert [Word("printf"), Word(b64)] + DECODER + end == [Word("printf")] + ([Word(b64)] + ([Pipe] + decode));
  }

  /**
   * A shell reads the script as a pipeline of three commands whose last has exactly the given
   * arguments, whatever characters they hold, if and only if there is a command to run at all.
   */
  lemma ScriptParsesExactly(args: seq<string>, content: Bytes)
    ensures Parse(Script(args, content)) == Some([["printf", Base64.Encode(content)], ["base64", "-d"], args])
       <==> args != []
  {
    LexScript(args, content);
    CommandsOfScript(Base64.Encode(content), args);
    hide Lex, Commands, Script;
  }

  /** The command is started with exactly the arguments, and its input is exactly the content. */
  lemma ScriptDelivers(args: seq<string>, content: Bytes)
    requires args != []
    ensures Parse(Script(args, content)).Some?
    ensures Delivered(Parse(Script(args, content)).value) == Some(Delivery(args, content))
  {
    ScriptParsesExactly(args, content);
    hide Parse, Script;
    Base64Inert(content);
    Base64.DecodeEncode(content);
    hide Base64.Encode, Base64.Decode;
  }
}
