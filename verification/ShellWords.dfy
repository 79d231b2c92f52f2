/** Words written for a shell (src/os/mod.rs, src/catalog/discover/tailscale.rs), against the
    quoting rules of sections 2.2.1 to 2.2.3 of IEEE Std 1003.1-2017 (Shell Command Language).

    `Split` is the reference reader. It knows backslash, single quotes, double quotes and blanks,
    and gives `None` for everything that a shell would treat as more than text: an operator, an
    expansion, a pattern, a comment, or a quote that is never closed. A word that `Split` returns
    is therefore a word that reaches the command unchanged. */
module ShellWords {
  import opened Common

  // ---- The reference reader ----

  predicate Blank(c: char) {
    c == ' ' || c == '\t' || c == '\n'
  }

  /** Characters with a meaning of their own outside quotes. */
  predicate Special(c: char) {
    c in "|&;<>()$`*?[#~"
  }

  datatype Mode = Bare | Single | Double

  function Finish(word: Option<string>): seq<string> {
    if word.Some? then [word.value] else []
  }

  function Then(first: seq<string>, rest: Option<seq<string>>): Option<seq<string>> {
    if rest.Some? then Some(first + rest.value) else None
  }

  function Text(word: Option<string>): string {
    if word.Some? then word.value else ""
  }

  function Grow(word: Option<string>, c: char): Option<string> {
    Some(Text(word) + [c])
  }

  /** Read the words of `s` from inside `word`, which is `None` between words. */
  function Read(s: string, mode: Mode, word: Option<string>): Option<seq<string>>
    decreases |s|
  {
    if s == "" then if mode == Bare then Some(Finish(word)) else None
    else
      var c, rest := s[0], s[1..];
      match mode
      case Single =>
        // Section 2.2.2: every character but the closing quote is itself.
        if c == '\'' then Read(rest, Bare, word) else Read(rest, Single, Grow(word, c))
      case Double =>
        // Section 2.2.3: expansions stay active, and backslash escapes only five characters.
        if c == '"' then Read(rest, Bare, word)
        else if c == '$' || c == '`' then None
        else if c == '\\' && rest != "" && rest[0] in "$`\"\\\n" then
          if rest[0] == '\n' then Read(rest[1..], Double, word) else Read(rest[1..], Double, Grow(word, rest[0]))
        else Read(rest, Double, Grow(word, c))
      case Bare =>
        if Blank(c) then Then(Finish(word), Read(rest, Bare, None))
        else if c == '\'' then Read(rest, Single, Some(Text(word)))
        else if c == '"' then Read(rest, Double, Some(Text(word)))
        else if c == '\\' then
          // Section 2.2.1.
          if rest == "" then None
          else if rest[0] == '\n' then Read(rest[1..], Bare, word)
          else Read(rest[1..], Bare, Grow(word, rest[0]))
        else if Special(c) then None
        else Read(rest, Bare, Grow(word, c))
  }

  function Split(s: string): Option<seq<string>> {
    Read(s, Bare, None)
  }

  // ---- The source's writers ----

  function Replaced(s: string, c: char, text: string): string {
    if s == "" then "" else (if s[0] == c then text else [s[0]]) + Replaced(s[1..], c, text)
  }

  predicate Plain(c: char) {
    'a' <= c <= 'z' || 'A' <= c <= 'Z' || '0' <= c <= '9' || c in "_@%+=:,./-"
  }

  predicate PlainWord(word: string) {
    word != "" && forall i :: 0 <= i < |word| ==> Plain(word[i])
  }

  function ShellWord(word: string): string {
    if PlainWord(word) then word
    else "'" + Replaced(word, '\'', "'\"'\"'") + "'"
  }

  function Joined(words: seq<string>): string {
    if words == [] then "" else if |words| == 1 then words[0] else words[0] + " " + Joined(words[1..])
  }

  function Quoted(words: seq<string>): seq<string> {
    seq(|words|, i requires 0 <= i < |words| => ShellWord(words[i]))
  }

  function ShellJoin(words: seq<string>): string {
    Joined(Quoted(words))
  }

  /** The quoting inside `proxy`: percent signs for OpenSSH, then quotes for the shell. */
  function ProxyQuote(s: string): string {
    "'" + Replaced(Replaced(s, '%', "%%"), '\'', "'\\''") + "'"
  }

  type Octet = n: nat | n < 256
  type Port = n: nat | n < 65536
  datatype Ipv4 = Ipv4(a: Octet, b: Octet, c: Octet, d: Octet)

  function Dotted(ip: Ipv4): string {
    Decimal(ip.a) + "." + Decimal(ip.b) + "."
    + Decimal(ip.c) + "." + Decimal(ip.d)
  }

  /** The value of the ProxyCommand option that `TailClient::proxy` writes. */
  function ProxyCommand(binary: string, socket: string, ip: Ipv4, port: Port): string {
    ProxyQuote(binary) + " " + ProxyQuote("--socket=" + socket) + " nc " + Dotted(ip) + " "
    + Decimal(port)
  }

  /** OpenSSH's expansion of percent tokens: `%%` is a percent sign, `%c` is what the client knows
      under `c`, and any other token ends the connection. */
  function PercentExpand(s: string, tokens: map<char, string>): Option<string> {
    if s == "" then Some("")
    else if s[0] != '%' then
      var rest := PercentExpand(s[1..], tokens);
      if rest.Some? then Some([s[0]] + rest.value) else None
    else if |s| == 1 then None
    else
      var rest := PercentExpand(s[2..], tokens);
      if rest.None? then None
      else if s[1] == '%' then Some("%" + rest.value)
      else if s[1] in tokens then Some(tokens[s[1]] + rest.value)
      else None
  }

  // ---- Reading back what was written ----

  /** One step of the reader. */
  lemma ReadOne(c: char, rest: string, mode: Mode, word: Option<string>)
    requires mode == Bare ==> !Blank(c) && c != '\\'
    requires mode == Double ==> c !in "$`\\"
    ensures Read([c] + rest, mode, word)
         == if mode == Single then if c == '\'' then Read(rest, Bare, word) else Read(rest, Single, Grow(word, c))
            else if mode == Double then if c == '"' then Read(rest, Bare, word) else Read(rest, Double, Grow(word, c))
            else if c == '\'' then Read(rest, Single, Some(Text(word)))
            else if c == '"' then Read(rest, Double, Some(Text(word)))
            else if Special(c) then None else Read(rest, Bare, Grow(word, c))
  {
    assert ([c] + rest)[1..] == rest;
  }

  /** A plain character stands for itself outside quotes. */
  lemma ReadPlainChar(c: char, rest: string, word: Option<string>)
    requires Plain(c)
    ensures Read([c] + rest, Bare, word) == Read(rest, Bare, Grow(word, c))
  {
    ReadOne(c, rest, Bare, word);
  }

  lemma ReadOpen(rest: string, word: Option<string>)
    ensures Read(['\''] + rest, Bare, word) == Read(rest, Single, Some(Text(word)))
  {
    assert (['\''] + rest)[1..] == rest;
  }

  /** Section 2.2.1: a backslash keeps the next character. */
  lemma ReadEscaped(c: char, rest: string, word: Option<string>)
    requires c != '\n'
    ensures Read("\\" + ([c] + rest), Bare, word) == Read(rest, Bare, Grow(word, c))
  {
    assert ("\\" + ([c] + rest))[1..] == [c] + rest && ([c] + rest)[1..] == rest;
  }

  lemma {:induction false} ReadQuoted(w: string, rest: string, done: string)
    ensures Read(Replaced(w, '\'', "'\"'\"'") + "'" + rest, Single, Some(done)) == Read(rest, Bare, Some(done + w))
  {
    hide Read;
    if w == "" {
      assert Replaced(w, '\'', "'\"'\"'") + "'" + rest == ['\''] + rest && done + w == done;
      ReadOne('\'', rest, Single, Some(done));
    } else {
      var tail := Replaced(w[1..], '\'', "'\"'\"'") + "'" + rest;
      ReadQuoted(w[1..], rest, done + [w[0]]);
      assert done + [w[0]] + w[1..] == done + w;
      if w[0] == '\'' {
        assert Replaced(w, '\'', "'\"'\"'") + "'" + rest == "'\"'\"'" + tail;
        ReadEscapedQuote(tail, done);
      } else {
        assert Replaced(w, '\'', "'\"'\"'") + "'" + rest == [w[0]] + tail;
        ReadOne(w[0], tail, Single, Some(done));
      }
    }
  }

  /** Close the quote, a quote in double quotes, open the quote again. */
  lemma ReadEscapedQuote(tail: string, done: string)
    ensures Read("'\"'\"'" + tail, Single, Some(done)) == Read(tail, Single, Some(done + "'"))
  {
    hide Read;
    var reopened := ['\''] + tail;
    var closing := ['"'] + reopened;
    var quoted := ['\''] + closing;
    var opening := ['"'] + quoted;
    assert "'\"'\"'" + tail == ['\''] + opening;
    ReadOne('\'', opening, Single, Some(done));
    ReadOne('"', quoted, Bare, Some(done));
    ReadOne('\'', closing, Double, Some(done));
    ReadOne('"', reopened, Double, Some(done + "'"));
    ReadOpen(tail, Some(done + "'"));
  }

  lemma {:induction false} ReadPlain(w: string, rest: string, word: Option<string>)
    requires PlainWord(w)
    ensures Read(w + rest, Bare, word) == Read(rest, Bare, Some(Text(word) + w))
  {
    hide Read, Plain;
    var tail := w[1..];
    assert w + rest == [w[0]] + (tail + rest);
    ReadPlainChar(w[0], tail + rest, word);
    if tail != "" {
      assert PlainWord(tail) by {
        forall i | 0 <= i < |tail|
          ensures Plain(tail[i])
        {
          assert tail[i] == w[i + 1];
        }
      }
      ReadPlain(tail, rest, Some(Text(word) + [w[0]]));
      assert Text(word) + [w[0]] + tail == Text(word) + w;
    } else {
      assert tail + rest == rest && [w[0]] == w;
    }
  }

  lemma ReadWord(w: string, rest: string)
    ensures Read(ShellWord(w) + rest, Bare, None) == Read(rest, Bare, Some(w))
  {
    hide Read;
    assert "" + w == w;
    if PlainWord(w) {
      ReadPlain(w, rest, None);
    } else {
      var quoted := Replaced(w, '\'', "'\"'\"'") + "'" + rest;
      assert ShellWord(w) + rest == ['\''] + quoted;
      ReadOpen(quoted, None);
      ReadQuoted(w, rest, "");
    }
  }

  lemma ReadBlank(rest: string, word: Option<string>)
    ensures Read(" " + rest, Bare, word) == Then(Finish(word), Read(rest, Bare, None))
  {
    assert (" " + rest)[1..] == rest;
  }

  /** A shell that splits the joined words gets the words, empty ones included. */
  lemma {:induction false} SplitShellJoin(words: seq<string>)
    ensures Split(ShellJoin(words)) == Some(words)
  {
    if words == [] {
    } else {
      var tail := words[1..];
      assert Quoted(words) == [ShellWord(words[0])] + Quoted(tail);
      assert Quoted(words)[1..] == Quoted(tail);
      SplitShellJoin(tail);
      SplitOneMore(words[0], tail);
      assert [words[0]] + tail == words;
    }
  }

  lemma SplitOneMore(word: string, tail: seq<string>)
    requires Split(ShellJoin(tail)) == Some(tail)
    ensures Split(if tail == [] then ShellWord(word) else ShellWord(word) + " " + ShellJoin(tail)) == Some([word] + tail)
  {
    if tail == [] {
      ReadWord(word, "");
      assert ShellWord(word) + "" == ShellWord(word) && [word] + tail == [word];
    } else {
      assert ShellWord(word) + " " + ShellJoin(tail) == ShellWord(word) + (" " + ShellJoin(tail));
      ReadWord(word, " " + ShellJoin(tail));
      ReadBlank(ShellJoin(tail), Some(word));
    }
  }

  /** Different lists of words are never written alike. */
  lemma ShellJoinInjective(words: seq<string>, others: seq<string>)
    requires ShellJoin(words) == ShellJoin(others)
    ensures words == others
  {
    SplitShellJoin(words);
    SplitShellJoin(others);
  }

  // ---- ProxyCommand ----

  /** What the shell gets for one proxied word. */
  function ProxyWord(s: string): string {
    "'" + Replaced(s, '\'', "'\\''") + "'"
  }

  function Prefixed(first: string, rest: Option<string>): Option<string> {
    if rest.Some? then Some(first + rest.value) else None
  }

  lemma {:induction false} ExpandLiteral(s: string, rest: string, tokens: map<char, string>)
    requires '%' !in s
    ensures PercentExpand(s + rest, tokens) == Prefixed(s, PercentExpand(rest, tokens))
  {
    var after := PercentExpand(rest, tokens);
    if s == "" {
      assert s + rest == rest && (after.Some? ==> s + after.value == after.value);
    } else {
      assert (s + rest)[1..] == s[1..] + rest;
      ExpandLiteral(s[1..], rest, tokens);
      if after.Some? {
        assert [s[0]] + (s[1..] + after.value) == s + after.value;
      }
    }
  }

  /** What `ProxyQuote` and `ProxyWord` make of one character. */
  function Doubled(c: char): string {
    if c == '%' then "%%" else if c == '\'' then "'\\''" else [c]
  }

  function ProxyInner(s: string): string {
    Replaced(Replaced(s, '%', "%%"), '\'', "'\\''")
  }

  lemma ProxyInnerEmpty()
    ensures ProxyInner("") == ""
  {
  }

  lemma ProxyInnerStep(s: string)
    requires s != ""
    ensures ProxyInner(s) == Doubled(s[0]) + ProxyInner(s[1..])
  {
    var doubled := Replaced(s[1..], '%', "%%");
    if s[0] == '%' {
      assert Replaced(s, '%', "%%") == "%" + ("%" + doubled);
      ReplacedOther("%", doubled);
      ReplacedOther("%", "%" + doubled);
    } else {
      assert Replaced(s, '%', "%%") == [s[0]] + doubled;
      ReplacedOther([s[0]], doubled);
    }
  }

  /** Doubled percent signs survive the expansion, whatever the tokens are. */
  lemma {:induction false} ExpandReplaced(s: string, rest: string, tokens: map<char, string>)
    ensures PercentExpand(ProxyInner(s) + rest, tokens)
         == Prefixed(Replaced(s, '\'', "'\\''"), PercentExpand(rest, tokens))
  {
    hide PercentExpand, ProxyInner;
    var after := PercentExpand(rest, tokens);
    if s == "" {
      assert ProxyInner("") == "" by { ProxyInnerEmpty(); }
      assert ProxyInner(s) + rest == rest && (after.Some? ==> "" + after.value == after.value);
    } else {
      var first := if s[0] == '\'' then "'\\''" else [s[0]];
      var tail := ProxyInner(s[1..]) + rest;
      ExpandReplaced(s[1..], rest, tokens);
      ProxyInnerStep(s);
      assert ProxyInner(s) + rest == Doubled(s[0]) + tail;
      ExpandDoubled(s[0], tail, tokens);
      if after.Some? {
        assert first + (Replaced(s[1..], '\'', "'\\''") + after.value) == Replaced(s, '\'', "'\\''") + after.value;
      }
    }
  }

  lemma ExpandDoubled(c: char, tail: string, tokens: map<char, string>)
    ensures PercentExpand(Doubled(c) + tail, tokens)
         == Prefixed(if c == '\'' then "'\\''" else [c], PercentExpand(tail, tokens))
  {
    if c == '%' {
      assert ("%%" + tail)[2..] == tail;
    } else {
      ExpandLiteral(Doubled(c), tail, tokens);
    }
  }

  lemma ReplacedOther(c: string, rest: string)
    requires |c| == 1
    ensures Replaced(c + rest, '\'', "'\\''") == (if c[0] == '\'' then "'\\''" else c) + Replaced(rest, '\'', "'\\''")
  {
    assert (c + rest)[1..] == rest;
  }

  lemma ExpandProxyQuote(s: string, rest: string, tokens: map<char, string>)
    ensures PercentExpand(ProxyQuote(s) + rest, tokens) == Prefixed(ProxyWord(s), PercentExpand(rest, tokens))
  {
    assert ProxyQuote(s) + rest == "'" + (ProxyInner(s) + ("'" + rest));
    hide PercentExpand, ProxyInner, ProxyQuote;
    ExpandLiteral("'", ProxyInner(s) + ("'" + rest), tokens);
    ExpandReplaced(s, "'" + rest, tokens);
    ExpandLiteral("'", rest, tokens);
    var after := PercentExpand(rest, tokens);
    if after.Some? {
      assert ProxyWord(s) + after.value == "'" + (Replaced(s, '\'', "'\\''") + ("'" + after.value));
    }
  }

  lemma {:induction false} ReadProxyQuoted(w: string, rest: string, done: string)
    ensures Read(Replaced(w, '\'', "'\\''") + "'" + rest, Single, Some(done)) == Read(rest, Bare, Some(done + w))
  {
    hide Read;
    if w == "" {
      assert Replaced(w, '\'', "'\\''") + "'" + rest == ['\''] + rest && done + w == done;
      ReadOne('\'', rest, Single, Some(done));
    } else {
      var tail := Replaced(w[1..], '\'', "'\\''") + "'" + rest;
      ReadProxyQuoted(w[1..], rest, done + [w[0]]);
      assert done + [w[0]] + w[1..] == done + w;
      if w[0] == '\'' {
        assert Replaced(w, '\'', "'\\''") + "'" + rest == ['\''] + ("\\" + (['\''] + (['\''] + tail)));
        ReadOne('\'', "\\" + (['\''] + (['\''] + tail)), Single, Some(done));
        ReadEscaped('\'', ['\''] + tail, Some(done));
        ReadOpen(tail, Some(done + "'"));
      } else {
        assert Replaced(w, '\'', "'\\''") + "'" + rest == [w[0]] + tail;
        ReadOne(w[0], tail, Single, Some(done));
      }
    }
  }

  lemma ReadProxyWord(w: string, rest: string)
    ensures Read(ProxyWord(w) + (" " + rest), Bare, None) == Then([w], Read(rest, Bare, None))
  {
    hide Read;
    var quoted := Replaced(w, '\'', "'\\''") + "'" + (" " + rest);
    assert ProxyWord(w) + (" " + rest) == ['\''] + quoted && "" + w == w;
    ReadOpen(quoted, None);
    ReadProxyQuoted(w, " " + rest, "");
    ReadBlank(rest, Some(w));
  }

  lemma ReadPlainWord(w: string, rest: string)
    requires PlainWord(w)
    ensures Read(w + (" " + rest), Bare, None) == Then([w], Read(rest, Bare, None))
    ensures Split(w) == Some([w])
  {
    assert "" + w == w && w + "" == w;
    ReadPlain(w, " " + rest, None);
    ReadPlain(w, "", None);
    ReadBlank(rest, Some(w));
  }

  lemma DottedIsPlain(ip: Ipv4)
    ensures PlainWord(Dotted(ip)) && '%' !in Dotted(ip)
  {
    DecimalDigits(ip.a);
    DecimalDigits(ip.b);
    DecimalDigits(ip.c);
    DecimalDigits(ip.d);
  }

  /** Whatever OpenSSH knows under its tokens, the shell that runs the proxy gets the binary and the
      socket argument unchanged, then `nc`, the address and the port. */
  lemma ProxyCommandRoundTrip(binary: string, socket: string, ip: Ipv4, port: Port, tokens: map<char, string>)
    ensures var expanded := PercentExpand(ProxyCommand(binary, socket, ip, port), tokens);
            expanded.Some? && Split(expanded.value)
              == Some([binary, "--socket=" + socket, "nc", Dotted(ip), Decimal(port)])
  {
    var argument, tail := "--socket=" + socket, ProxyTail(Dotted(ip), Decimal(port));
    assert ProxyCommand(binary, socket, ip, port)
        == ProxyQuote(binary) + (" " + (ProxyQuote(argument) + (" " + tail)));
    ReadProxyTail(ip, port);
    ExpandWords(binary, argument, tail, tokens);
    ReadWords(binary, argument, tail, Dotted(ip), Decimal(port));
  }

  function ProxyTail(address: string, number: string): string {
    "nc " + (address + (" " + number))
  }

  lemma ReadProxyTail(ip: Ipv4, port: Port)
    ensures var address, number := Dotted(ip), Decimal(port);
            '%' !in ProxyTail(address, number) && Split(ProxyTail(address, number)) == Some(["nc", address, number])
  {
    DottedIsPlain(ip);
    DecimalDigits(port);
    ReadTail(Dotted(ip), Decimal(port));
  }

  lemma ExpandWords(binary: string, argument: string, tail: string, tokens: map<char, string>)
    requires '%' !in tail
    ensures PercentExpand(ProxyQuote(binary) + (" " + (ProxyQuote(argument) + (" " + tail))), tokens)
         == Some(ProxyWord(binary) + (" " + (ProxyWord(argument) + (" " + tail))))
  {
    ExpandProxyQuote(binary, " " + (ProxyQuote(argument) + (" " + tail)), tokens);
    ExpandLiteral(" ", ProxyQuote(argument) + (" " + tail), tokens);
    ExpandProxyQuote(argument, " " + tail, tokens);
    ExpandLiteral(" " + tail, "", tokens);
    assert (" " + tail) + "" == " " + tail;
  }

  lemma ReadTail(address: string, number: string)
    requires PlainWord(address)
    requires PlainWord(number)
    ensures Split(ProxyTail(address, number)) == Some(["nc", address, number])
  {
    assert "nc " + (address + (" " + number)) == "nc" + (" " + (address + (" " + number)));
    ReadPlainWord("nc", address + (" " + number));
    ReadPlainWord(address, number);
    ReadPlainWord(number, "");
    assert ["nc"] + ([address] + [number]) == ["nc", address, number];
  }

  lemma ReadWords(binary: string, argument: string, tail: string, address: string, number: string)
    requires Split(tail) == Some(["nc", address, number])
    ensures Split(ProxyWord(binary) + (" " + (ProxyWord(argument) + (" " + tail))))
         == Some([binary, argument, "nc", address, number])
  {
    ReadProxyWord(binary, ProxyWord(argument) + (" " + tail));
    ReadProxyWord(argument, tail);
    assert [binary] + ([argument] + ["nc", address, number]) == [binary, argument, "nc", address, number];
  }
}
