/** Quoting a path for the remote shell (shellQuote in pkg/api/terminal.go, shellWord in
    pkg/client/client.go), against a reader of shell words.

    The reader follows sections 2.2 and 2.3 of the POSIX.1-2017 Shell Command Language for
    blanks, backslashes and single quotes, and gives up on anything else that is special when
    unquoted. */
module ShellQuote {
  import opened Wrappers

  // ---------- the shell's side ----------

  /** One character of a word, and whether it was quoted. */
  datatype Char = Char(c: char, quoted: bool)

  type Word = seq<Char>

  datatype Mode = Between | InWord | Escaped(inWord: bool) | SingleQuoted

  datatype Reader = Reading(words: seq<Word>, current: Word, mode: Mode) | GaveUp

  const NUL: char := '\0'

  /** Characters section 2.2 says to quote to stand for themselves, other than the three the
      reader handles, the blanks, and ~ = %, which are special in places only. */
  predicate Special(c: char) {
    || c == '|' || c == '&' || c == ';' || c == '<' || c == '>' || c == '(' || c == ')'
    || c == '$' || c == '`' || c == '"' || c == '*' || c == '?' || c == '[' || c == '\n'
  }

  predicate Blank(c: char) {
    c == ' ' || c == '\t'
  }

  /** One character outside quotes. */
  function StepBare(r: Reader, c: char): Reader
    requires r.Reading?
  {
    if Blank(c) then
      if r.mode == InWord then Reading(r.words + [r.current], [], Between) else r
    else if c == '\'' then r.(mode := SingleQuoted)
    else if c == '\\' then r.(mode := Escaped(r.mode == InWord))
    else if Special(c) || (c == '#' && r.mode == Between) then GaveUp
    else r.(current := r.current + [Char(c, false)], mode := InWord)
  }

  function Step(r: Reader, c: char): Reader {
    if r.GaveUp? || c == NUL then GaveUp
    else match r.mode
      case SingleQuoted => // 2.2.2: everything up to the next single quote is literal
        if c == '\'' then r.(mode := InWord) else r.(current := r.current + [Char(c, true)])
      case Escaped(inWord) => // 2.2.1: the next character is literal; a newline is removed
        if c == '\n' then r.(mode := if inWord then InWord else Between)
        else r.(current := r.current + [Char(c, true)], mode := InWord)
      case _ => StepBare(r, c)
  }

  function Read(r: Reader, s: string): Reader
    decreases |s|
  {
    if s == [] then r else Read(Step(r, s[0]), s[1..])
  }

  const Fresh := Reading([], [], Between)

  /** The words of a command line; None when it is not a complete one the reader knows. */
  function Words(s: string): Option<seq<Word>> {
    match Read(Fresh, s)
    case GaveUp => None
    case Reading(words, current, mode) =>
      match mode
      case Between => Some(words)
      case InWord => Some(words + [current])
      case _ => None
  }

  function Literal(s: string, quoted: bool): Word {
    seq(|s|, i requires 0 <= i < |s| => Char(s[i], quoted))
  }

  /** What the word stands for, when it is not open to tilde expansion. */
  function Text(w: Word): string {
    seq(|w|, i requires 0 <= i < |w| => w[i].c)
  }

  predicate OpensTilde(w: Word) {
    w != [] && w[0] == Char('~', false)
  }

  // ---------- the code's side ----------

  /** strings.ReplaceAll(s, "'", `'\''`) */
  function Replaced(s: string): string {
    if s == [] then []
    else (if s[0] == '\'' then "'\\''" else [s[0]]) + Replaced(s[1..])
  }

  function Quoted(s: string): string {
    "'" + Replaced(s) + "'"
  }

  predicate PlainChar(c: char) {
    || 'a' <= c <= 'z' || 'A' <= c <= 'Z' || '0' <= c <= '9' || c == '_' || c == '.' || c == '/' || c == '~'
    || c == ':' || c == '@' || c == '%' || c == '+' || c == '=' || c == ',' || c == '-'
  }

  /** Letters, digits, and the punctuation of paths, addresses and options. */
  lemma PlainCharsAre(c: char)
    ensures PlainChar(c) <==>
            c in "abcdefghijklmnopqrstuvwxyz" || c in "ABCDEFGHIJKLMNOPQRSTUVWXYZ" || c in "0123456789" ||
            c in "_./~:@%+=,-"
  {}

  predicate Plain(s: string) {
    s != "" && forall i | 0 <= i < |s| :: PlainChar(s[i])
  }

  method ShellWord(s: string) returns (word: string)
    ensures word == if Plain(s) then s else Quoted(s)
  {
    var plain := s != "";
    for i := 0 to |s|
      invariant plain <==> s != ""
      invariant forall j | 0 <= j < i :: PlainChar(s[j])
    {
      if !PlainChar(s[i]) {
        plain := false;
        break;
      }
    }
    if plain {
      return s;
    }
    word := Quoted(s);
  }

  // ---------- reading a quoted string ----------

  lemma {:induction false} ReadAppends(r: Reader, a: string, b: string)
    ensures Read(r, a + b) == Read(Read(r, a), b)
    decreases |a|
  {
    if a == [] {
      assert a + b == b;
    } else {
      assert (a + b)[1..] == a[1..] + b;
      ReadAppends(Step(r, a[0]), a[1..], b);
    }
  }

  lemma LiteralSplits(s: string, quoted: bool)
    requires s != []
    ensures Literal(s, quoted) == [Char(s[0], quoted)] + Literal(s[1..], quoted)
  {}

  lemma ReadOne(r: Reader, c: char)
    ensures Read(r, [c]) == Step(r, c)
  {
    assert [c][1..] == [];
  }

  /** Closing, escaping and reopening adds one quoted single quote. */
  lemma ReadEscapedQuote(r: Reader)
    requires r.Reading? && r.mode == SingleQuoted
    ensures Read(r, "'\\''") == r.(current := r.current + [Char('\'', true)])
  {
    var a := Step(r, '\'');
    var b := Step(a, '\\');
    var c := Step(b, '\'');
    assert "'\\''" == ['\''] + (['\\'] + (['\''] + ['\'']));
    ReadAppends(r, ['\''], ['\\'] + (['\''] + ['\'']));
    ReadAppends(a, ['\\'], ['\''] + ['\'']);
    ReadAppends(b, ['\''], ['\'']);
    ReadOne(r, '\'');
    ReadOne(a, '\\');
    ReadOne(b, '\'');
    ReadOne(c, '\'');
  }

  lemma {:induction false} ReadReplaced(r: Reader, s: string)
    requires r.Reading? && r.mode == SingleQuoted && NUL !in s
    ensures Read(r, Replaced(s)) == r.(current := r.current + Literal(s, true))
    decreases |s|
  {
    if s == [] {
      assert r.current + Literal(s, true) == r.current;
    } else {
      var head := if s[0] == '\'' then "'\\''" else [s[0]];
      var next := r.(current := r.current + [Char(s[0], true)]);
      assert Read(r, head) == next by {
        if s[0] == '\'' {
          ReadEscapedQuote(r);
        } else {
          ReadOne(r, s[0]);
        }
      }
      ReadAppends(r, head, Replaced(s[1..]));
      ReadReplaced(next, s[1..]);
      LiteralSplits(s, true);
      assert next.current + Literal(s[1..], true) == r.current + Literal(s, true);
    }
  }

  /** From outside quotes, a quoted string adds exactly its characters, quoted, to the word. */
  lemma ReadQuoted(r: Reader, s: string)
    requires r.Reading? && (r.mode == Between || r.mode == InWord) && NUL !in s
    ensures Read(r, Quoted(s)) == r.(current := r.current + Literal(s, true), mode := InWord)
  {
    var open := r.(mode := SingleQuoted);
    ReadOne(r, '\'');
    ReadReplaced(open, s);
    var inner := open.(current := r.current + Literal(s, true));
    ReadOne(inner, '\'');
    ReadAppends(r, "'" + Replaced(s), "'");
    ReadAppends(r, "'", Replaced(s));
  }

  /** A plain string adds its characters as they are. */
  lemma {:induction false} ReadPlain(r: Reader, s: string)
    requires r.Reading? && (r.mode == Between || r.mode == InWord)
    requires forall i | 0 <= i < |s| :: PlainChar(s[i])
    ensures Read(r, s) == if s == [] then r else r.(current := r.current + Literal(s, false), mode := InWord)
    decreases |s|
  {
    if s != [] {
      var next := r.(current := r.current + [Char(s[0], false)], mode := InWord);
      PlainIsBare(r, s[0]);
      ReadPlain(next, s[1..]);
      LiteralSplits(s, false);
      assert next.current + Literal(s[1..], false) == r.current + Literal(s, false);
    }
  }

  lemma PlainIsBare(r: Reader, c: char)
    requires r.Reading? && (r.mode == Between || r.mode == InWord) && PlainChar(c)
    ensures Step(r, c) == r.(current := r.current + [Char(c, false)], mode := InWord)
  {}

  // ---------- words of a whole command line ----------

  /** Earlier words do not matter to what is read next. */
  lemma {:induction false} ReadAfterWords(before: seq<Word>, r: Reader, s: string)
    requires r.Reading?
    ensures var t := Read(r, s);
            Read(r.(words := before + r.words), s) == if t.GaveUp? then GaveUp else t.(words := before + t.words)
    decreases |s|
  {
    if s != [] {
      var next := Step(r, s[0]);
      var shifted := Step(r.(words := before + r.words), s[0]);
      if next.GaveUp? {
        GivenUp(s[1..]);
      } else {
        assert before + (r.words + [r.current]) == before + r.words + [r.current];
        assert shifted == next.(words := before + next.words);
        ReadAfterWords(before, next, s[1..]);
      }
    }
  }

  lemma {:induction false} GivenUp(s: string)
    ensures Read(GaveUp, s) == GaveUp
  {
    if s != [] {
      GivenUp(s[1..]);
    }
  }

  /** A complete command line, a blank, and another: the words of both. */
  lemma WordsJoin(a: string, b: string)
    requires Words(a).Some? && Words(b).Some?
    ensures Words(a + " " + b) == Some(Words(a).value + Words(b).value)
  {
    var r := Read(Fresh, a);
    ReadAppends(Fresh, a + " ", b);
    ReadAppends(Fresh, a, " ");
    ReadOne(r, ' ');
    var done := Reading(Words(a).value, [], Between);
    assert Step(r, ' ') == done by {
      BetweenHasNoWord(Fresh, a);
    }
    ReadAfterWords(Words(a).value, Fresh, b);
    assert Words(a).value + [] == Words(a).value;
    var t := Read(Fresh, b);
    assert t.mode == InWord ==>
             Words(a).value + (t.words + [t.current]) == Words(a).value + t.words + [t.current];
  }

  lemma {:induction false} BetweenHasNoWord(r: Reader, s: string)
    requires r.Reading? && ((r.mode == Between || r.mode == Escaped(false)) ==> r.current == [])
    ensures var t := Read(r, s);
            t.Reading? && (t.mode == Between || t.mode == Escaped(false)) ==> t.current == []
    decreases |s|
  {
    if s != [] {
      var next := Step(r, s[0]);
      if next.GaveUp? {
        GivenUp(s[1..]);
      } else {
        BetweenHasNoWord(next, s[1..]);
      }
    }
  }

  // ---------- the round trips ----------

  /** A quoted string reads back as one word, itself, every character of it quoted. */
  lemma QuotedIsOneWord(s: string)
    requires NUL !in s
    ensures Words(Quoted(s)) == Some([Literal(s, true)]) && Text(Literal(s, true)) == s
    ensures !OpensTilde(Literal(s, true))
  {
    ReadQuoted(Fresh, s);
    assert [] + Literal(s, true) == Literal(s, true);
    assert [] + [Literal(s, true)] == [Literal(s, true)];
  }

  /** Wherever it stands among the arguments of a command. */
  lemma QuotedArgument(before: string, s: string, after: string)
    requires NUL !in s && Words(before).Some? && Words(after).Some?
    ensures Words(before + " " + Quoted(s)) == Some(Words(before).value + [Literal(s, true)])
    ensures Words(before + " " + Quoted(s) + " " + after) ==
            Some(Words(before).value + [Literal(s, true)] + Words(after).value)
  {
    QuotedIsOneWord(s);
    WordsJoin(before, Quoted(s));
    WordsJoin(before + " " + Quoted(s), after);
  }

  /** shellWord, whichever branch it takes; only a plain word that starts with a tilde is still
      open to the shell. */
  lemma ShellWordIsOneWord(before: string, s: string, word: string)
    requires NUL !in s && Words(before).Some?
    requires word == if Plain(s) then s else Quoted(s)
    ensures exists w: Word ::
              && Words(before + " " + word) == Some(Words(before).value + [w]) && Text(w) == s
              && (OpensTilde(w) <==> Plain(s) && s[0] == '~')
  {
    if Plain(s) {
      ReadPlain(Fresh, s);
      var w := Literal(s, false);
      assert [] + w == w && [] + [w] == [w];
      assert Words(s) == Some([w]);
      WordsJoin(before, s);
      assert Text(w) == s && w[0] == Char(s[0], false);
    } else {
      QuotedArgument(before, s, "");
      assert Text(Literal(s, true)) == s;
    }
  }

  /** So two strings are told apart by their quoted forms. */
  lemma QuotedIsInjective(s: string, t: string)
    requires NUL !in s && NUL !in t && Quoted(s) == Quoted(t)
    ensures s == t
  {
    QuotedIsOneWord(s);
    QuotedIsOneWord(t);
  }

  /** A NUL cannot be passed at all. */
  lemma NulIsRefused(s: string)
    requires NUL in s
    ensures Words(Quoted(s)) == None
  {
    var i :| 0 <= i < |s| && s[i] == NUL;
    ReplacedKeepsNul(s);
    var q := Quoted(s);
    assert NUL in q;
    var j :| 0 <= j < |q| && q[j] == NUL;
    assert q == q[..j] + ([NUL] + q[j + 1..]);
    ReadAppends(Fresh, q[..j], [NUL] + q[j + 1..]);
    var r := Read(Fresh, q[..j]);
    ReadAppends(r, [NUL], q[j + 1..]);
    ReadOne(r, NUL);
    GivenUp(q[j + 1..]);
  }

  lemma {:induction false} ReplacedKeepsNul(s: string)
    requires NUL in s
    ensures NUL in Replaced(s)
    decreases |s|
  {
    if s[0] != NUL {
      assert s == [s[0]] + s[1..];
      ReplacedKeepsNul(s[1..]);
    }
  }
}
