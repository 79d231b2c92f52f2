/** Reading group and start time from a line of `/proc/<pid>/stat` (src/os/linux/group.rs): the command
    name in it is arbitrary. */
module ProcStat {
  import opened Common

  datatype Identity = Identity(group: int, start: nat)

  predicate IsSpace(c: char) {
    c == ' ' || c == '\t' || c == '\n' || c == '\r' || c as int == 12
  }

  /** What follows the last closing parenthesis. */
  function Tail(s: string): Option<string> {
    if s == "" then None
    else
      var last, front := s[|s| - 1], s[..|s| - 1];
      if last == ')' then Some("")
      else
        var tail := Tail(front);
        if tail.Some? then Some(tail.value + [last]) else None
  }

  function Flush(word: string): seq<string> {
    if word == "" then [] else [word]
  }

  /** The words of the text, with `word` already read of the first. */
  function Words(s: string, word: string): seq<string> {
    if s == "" then Flush(word)
    else if IsSpace(s[0]) then Flush(word) + Words(s[1..], "")
    else Words(s[1..], word + [s[0]])
  }

  /** A decimal number with an optional sign; a minus only where negative numbers are allowed. */
  function Number(word: string, signed: bool): Option<int> {
    if word == "" then None
    else if word[0] == '+' then Digits(word[1..])
    else if word[0] == '-' && signed then
      var digits := Digits(word[1..]);
      if digits.Some? then Some(-digits.value) else None
    else Digits(word)
  }

  function Digits(word: string): Option<int> {
    var n := Parsed(word);
    if n.Some? then Some(n.value) else None
  }

  function Within(n: Option<int>, low: int, high: int): Option<int> {
    if n.Some? && low <= n.value <= high then n else None
  }

  const I32: int := 0x8000_0000
  const U64: int := 0x1_0000_0000_0000_0000

  function ParseIdentity(stat: string): Option<Identity> {
    var tail := Tail(stat);
    if tail.None? then None
    else
      var fields := Words(tail.value, "");
      if |fields| <= 19 then None
      else
        var group := Within(Number(fields[2], true), -I32, I32 - 1);
        var start := Within(Number(fields[19], false), 0, U64 - 1);
        if group.Some? && start.Some? then Some(Identity(group.value, start.value)) else None
  }

  // ---- What the kernel writes ----

  function Signed(n: int): string {
    if n < 0 then "-" + Decimal(-n) else Decimal(n)
  }

  function Joined(words: seq<string>): string {
    if words == [] then "\n" else " " + words[0] + Joined(words[1..])
  }

  /** A line: the number, the command name, and the fields after it. */
  function Line(pid: nat, comm: string, fields: seq<string>): string {
    Decimal(pid) + " (" + comm + ")" + Joined(fields)
  }

  ghost predicate Plain(word: string) {
    word != "" && forall c :: c in word ==> !IsSpace(c) && c != ')'
  }

  lemma {:induction false} TailOf(front: string, tail: string)
    requires forall c :: c in tail ==> c != ')'
    ensures Tail(front + ")" + tail) == Some(tail)
    decreases |tail|
  {
    var s := front + ")" + tail;
    if tail == "" {
      assert s[|s| - 1] == ')';
    } else {
      assert s[|s| - 1] == tail[|tail| - 1] && tail[|tail| - 1] in tail;
      var shorter := tail[..|tail| - 1];
      forall c | c in shorter
        ensures c != ')'
      {
        assert c in tail;
      }
      TailOf(front, shorter);
      assert s[..|s| - 1] == front + ")" + tail[..|tail| - 1];
      assert tail[..|tail| - 1] + [tail[|tail| - 1]] == tail;
    }
  }

  lemma {:induction false} WordsOf(word: string, rest: string, read: string)
    requires forall c :: c in word ==> !IsSpace(c)
    ensures Words(word + rest, read) == Words(rest, read + word)
  {
    if word == "" {
      assert word + rest == rest && read + word == read;
    } else {
      assert (word + rest)[1..] == word[1..] + rest;
      WordsOf(word[1..], rest, read + [word[0]]);
      assert read + [word[0]] + word[1..] == read + word;
    }
  }

  lemma {:induction false} WordsOfJoined(words: seq<string>, read: string)
    requires forall w :: w in words ==> Plain(w)
    ensures Words(Joined(words), read) == Flush(read) + words
  {
    if words == [] {
      assert Words("\n"[1..], "") == [];
    } else {
      assert Joined(words)[1..] == words[0] + Joined(words[1..]);
      assert Plain(words[0]);
      WordsOf(words[0], Joined(words[1..]), "");
      assert "" + words[0] == words[0];
      WordsOfJoined(words[1..], words[0]);
      assert [words[0]] + words[1..] == words;
    }
  }

  lemma {:induction false} JoinedPlain(words: seq<string>)
    requires forall w :: w in words ==> Plain(w)
    ensures forall c :: c in Joined(words) ==> c != ')'
  {
    if words == [] {
    } else {
      JoinedPlain(words[1..]);
      assert Plain(words[0]);
    }
  }

  lemma NumberOfSigned(n: int)
    ensures Number(Signed(n), true) == Some(n) && (n >= 0 ==> Number(Signed(n), false) == Some(n))
  {
    var size := if n < 0 then -n else n;
    var digits := Decimal(size);
    DecimalDigits(size);
    ParsedDecimal(size);
    hide Decimal, Parsed;
    assert digits[0] != '+' && digits[0] != '-';
    if n < 0 {
      assert Signed(n)[0] == '-' && Signed(n)[1..] == digits;
    }
  }

  /** Whatever the command name is, closing parentheses, spaces and digits included, the group and the
      start time of the line are the ones that are read. */
  lemma ReadsAnyLine(pid: nat, comm: string, fields: seq<string>, group: int, start: nat)
    requires |fields| >= 20 && forall w :: w in fields ==> Plain(w)
    requires fields[2] == Signed(group) && -I32 <= group < I32
    requires fields[19] == Decimal(start) && start < U64
    ensures ParseIdentity(Line(pid, comm, fields)) == Some(Identity(group, start))
  {
    var front := Decimal(pid) + " (" + comm;
    assert Line(pid, comm, fields) == front + ")" + Joined(fields);
    JoinedPlain(fields);
    TailOf(front, Joined(fields));
    WordsOfJoined(fields, "");
    assert Flush("") + fields == fields;
    NumberOfSigned(group);
    NumberOfSigned(start);
  }
}
