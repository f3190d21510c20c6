/** The command tokenizer of tokenizer.c: quotes, escapes, operators, subshells, a fixed buffer. */
module Tokenizer {
  import opened Strings

  const MAX_CMD_LEN: nat := 1024

  /** The loop's variables: finished arguments, the argument being built, and the mode flags. */
  datatype Scanner = Scanner(args: seq<string>, buf: string, depth: nat,
                             single: bool, double: bool, escaped: bool)
  {
    function Push(c: char): Scanner {
      this.(buf := buf + [c])
    }
    function Flush(): Scanner {
      if buf == "" then this else this.(args := args + [buf], buf := "")
    }
    /** Outside quotes, escape and subshell. */
    predicate Neutral() {
      depth == 0 && !single && !double && !escaped
    }
    predicate Full() {
      |buf| >= MAX_CMD_LEN - 1
    }
  }

  const START: Scanner := Scanner([], "", 0, false, false, false)

  predicate IsOperator(c: char) {
    c == '|' || c == '<' || c == '>' || c == '(' || c == ')' || c == '&'
  }

  predicate Doubles(c: char) {
    c == '&' || c == '|' || c == '>'
  }

  /** An operator that ends the current argument instead of being part of it. */
  predicate Splits(st: Scanner, c: char) {
    && !st.escaped && !st.single && !st.double && IsOperator(c) && st.depth == 0
    && !(c == '(' && st.buf != "" && st.buf[|st.buf| - 1] == '$')
  }

  /** How many characters one iteration consumes. */
  function Width(st: Scanner, c: char, next: char): nat {
    if Splits(st, c) && Doubles(c) && next == c then 2 else 1
  }

  /** One iteration of the loop on character `c`, `next` being the one after it (NUL at the end). */
  function Step(st: Scanner, c: char, next: char): Scanner {
    if st.escaped then
      st.Push(c).(escaped := false)
    else if Splits(st, c) then
      var f := st.Flush();
      f.(args := f.args + [if Doubles(c) && next == c then [c, c] else [c]])
    else if !st.single && !st.double && IsOperator(c) then
      if c == '(' && st.buf != "" && st.buf[|st.buf| - 1] == '$' then st.Push(c).(depth := st.depth + 1)
      else if c == ')' && st.depth > 0 then st.Push(c).(depth := st.depth - 1)
      else st.Push(c)
    else if c == ' ' || c == '\n' then
      if st.single || st.double || st.depth > 0 then st.Push(c) else st.Flush()
    else if c == '\'' && !st.double then
      st.(single := !st.single)
    else if c == '\"' && !st.single then
      st.(double := !st.double)
    else if c == '\\' && !st.double && !st.single then
      st.(escaped := true)
    else
      st.Push(c)
  }

  function Second(s: string): char {
    if |s| > 1 then s[1] else NUL
  }

  datatype Outcome = TooLong | Done(st: Scanner)

  function Scan(s: string, st: Scanner): Outcome
    decreases |s|
  {
    if s == "" then Done(st)
    else if st.Full() then TooLong
    else Scan(s[Width(st, s[0], Second(s))..], Step(st, s[0], Second(s)))
  }

  datatype Result = Error | Tokens(args: seq<string>)

  function Finish(o: Outcome): Result {
    if o.TooLong? then Error else Tokens(o.st.Flush().args)
  }

  function Tokenize(input: string): Result {
    Finish(Scan(input, START))
  }

  // ---- The loop over the fixed buffer -----------------------------------------------------

  /** arg_buffer[buff_position++] = c */
  method PutChar(argBuffer: array<char>, pos: nat, c: char) returns (pos': nat)
    requires pos < argBuffer.Length
    modifies argBuffer
    ensures pos' == pos + 1 && argBuffer[..pos'] == old(argBuffer[..pos]) + [c]
  {
    argBuffer[pos] := c;
    pos' := pos + 1;
  }

  /** The branch for an operator outside quotes. */
  method TakeOperator(args: seq<string>, argBuffer: array<char>, pos: nat, depth: nat, c: char, next: char)
    returns (args': seq<string>, pos': nat, depth': nat, width: nat)
    requires argBuffer.Length == MAX_CMD_LEN && pos < MAX_CMD_LEN - 1 && IsOperator(c)
    modifies argBuffer
    ensures pos' < MAX_CMD_LEN
    ensures var st := Scanner(args, old(argBuffer[..pos]), depth, false, false, false);
            && Scanner(args', argBuffer[..pos'], depth', false, false, false) == Step(st, c, next)
            && width == Width(st, c, next)
  {
    args', pos', depth', width := args, pos, depth, 1;
    if c == '(' && pos > 0 && argBuffer[pos - 1] == '$' {
      depth' := depth + 1;
      pos' := PutChar(argBuffer, pos, c);
    } else if c == ')' && depth > 0 {
      depth' := depth - 1;
      pos' := PutChar(argBuffer, pos, c);
    } else if depth > 0 {
      pos' := PutChar(argBuffer, pos, c);
    } else {
      if pos > 0 {
        args' := args' + [argBuffer[..pos]];
        pos' := 0;
      }
      if Doubles(c) && next == c {
        args' := args' + [[c, c]];
        width := 2;
      } else {
        args' := args' + [[c]];
      }
    }
  }

  /** tokenize_command with its array: every write is in bounds, and it computes Tokenize. */
  method TokenizeCommand(input: string) returns (r: Result)
    requires NUL !in input
    ensures r == Tokenize(input)
  {
    var argBuffer := new char[MAX_CMD_LEN];
    var args: seq<string> := [];
    var pos, depth := 0, 0;
    var single, double, escaped := false, false, false;
    var i := 0;
    while i < |input|
      invariant i <= |input| && pos < MAX_CMD_LEN && depth >= 0
      invariant Scan(input[i..], Scanner(args, argBuffer[..pos], depth, single, double, escaped)) == Scan(input, START)
    {
      hide Scan, Tokenize;
      ghost var st := Scanner(args, argBuffer[..pos], depth, single, double, escaped);
      ScanStep(input, i, st);
      var c, next, width := input[i], Second(input[i..]), 1;
      if pos >= MAX_CMD_LEN - 1 {
        return Error;
      }
      if escaped {
        pos := PutChar(argBuffer, pos, c);
        escaped := false;
      } else if !single && !double && IsOperator(c) {
        args, pos, depth, width := TakeOperator(args, argBuffer, pos, depth, c, next);
      } else if c == ' ' || c == '\n' {
        if single || double || depth > 0 {
          pos := PutChar(argBuffer, pos, c);
        } else if pos > 0 {
          args := args + [argBuffer[..pos]];
          pos := 0;
        }
      } else if c == '\'' && !double {
        single := !single;
      } else if c == '\"' && !single {
        double := !double;
      } else if c == '\\' && !double && !single {
        escaped := true;
      } else {
        pos := PutChar(argBuffer, pos, c);
      }
      assert Scanner(args, argBuffer[..pos], depth, single, double, escaped) == Step(st, c, next);
      assert width == Width(st, c, next);
      i := i + width;
    }
    if pos > 0 {
      args := args + [argBuffer[..pos]];
    }
    r := Tokens(args);
  }

  lemma ScanStep(input: string, i: nat, st: Scanner)
    requires i < |input|
    ensures var next := Second(input[i..]); var w := Width(st, input[i], next);
            && i + w <= |input|
            && Scan(input[i..], st) == if st.Full() then TooLong else Scan(input[i + w..], Step(st, input[i], next))
  {
    var s := input[i..];
    var w := Width(st, s[0], Second(s));
    assert s[w..] == input[i + w..];
  }

  // ---- What holds throughout --------------------------------------------------------------

  /** The buffer never overflows, and inside a subshell it is never empty. */
  predicate Sound(st: Scanner) {
    |st.buf| <= MAX_CMD_LEN - 1 && (st.depth > 0 ==> st.buf != "")
  }

  lemma {:induction false} ScanSound(s: string, st: Scanner)
    requires Sound(st) && Scan(s, st).Done?
    ensures Sound(Scan(s, st).st)
    decreases |s|
  {
    if s != "" {
      ScanSound(s[Width(st, s[0], Second(s))..], Step(st, s[0], Second(s)));
    }
  }

  /** Scanning continues where it stopped, unless the cut falls inside a doubled operator. */
  lemma {:induction false} ScanSplit(a: string, b: string, st: Scanner)
    requires Scan(a, st).Done? ==>
               a == "" || b == "" || a[|a| - 1] != b[0] || !Doubles(b[0]) || Scan(a, st).st.buf != ""
    ensures Scan(a + b, st) == if Scan(a, st).Done? then Scan(b, Scan(a, st).st) else TooLong
    decreases |a|
  {
    if a == "" {
      assert a + b == b;
    } else if !st.Full() {
      var w, st1 := Width(st, a[0], Second(a)), Step(st, a[0], Second(a));
      if |a| == 1 {
        assert a[1..] == "";
        assert (a + b)[1..] == b;
      } else {
        assert (a + b)[w..] == a[w..] + b;
        ScanSplit(a[w..], b, st1);
      }
    }
  }

  lemma StepCarries(pre: seq<string>, st: Scanner, c: char, next: char)
    ensures var st' := st.(args := pre + st.args); var st1 := Step(st, c, next);
            Step(st', c, next) == st1.(args := pre + st1.args) && Width(st', c, next) == Width(st, c, next)
  {
    var st1 := Step(st, c, next);
    assert pre + (st.args + [st.buf]) == pre + st.args + [st.buf];
    if Splits(st, c) {
      var f, op := st.Flush().args, [if Doubles(c) && next == c then [c, c] else [c]];
      assert pre + (f + op) == pre + f + op;
    }
  }

  /** Arguments already finished are carried along and never looked at. */
  lemma {:induction false} ScanCarries(s: string, pre: seq<string>, st: Scanner)
    ensures Scan(s, st.(args := pre + st.args))
            == if Scan(s, st).TooLong? then TooLong
               else Done(Scan(s, st).st.(args := pre + Scan(s, st).st.args))
    decreases |s|
  {
    var st' := st.(args := pre + st.args);
    if s != "" && !st.Full() {
      var st1 := Step(st, s[0], Second(s));
      StepCarries(pre, st, s[0], Second(s));
      hide Step, Splits;
      ScanCarries(s[Width(st, s[0], Second(s))..], pre, st1);
    }
  }

  function Both(a: Result, b: Result): Result {
    if a.Error? || b.Error? then Error else Tokens(a.args + b.args)
  }

  /** Scanning `b` with finished arguments before it. */
  lemma FinishCarries(b: string, args: seq<string>)
    ensures Finish(Scan(b, START.(args := args))) == Both(Tokens(args), Tokenize(b))
  {
    assert START.(args := args) == START.(args := args + START.args);
    ScanCarries(b, args, START);
    hide Scan;
    if Scan(b, START).Done? {
      var e := Scan(b, START).st;
      assert args + e.args + [e.buf] == args + (e.args + [e.buf]);
    }
  }

  /**
    Composition: if `a` ends outside quotes, escape and subshell, a space or newline concatenates the
    results; only an unfinished last word of 1023 characters makes it one character too many.
   */
  lemma Composition(a: string, sep: char, b: string)
    requires Scan(a, START).Done? ==> Scan(a, START).st.Neutral()
    requires sep == ' ' || sep == '\n'
    ensures Tokenize(a + [sep] + b)
            == if Scan(a, START).Done? && Scan(a, START).st.Full() then Error
               else Both(Tokenize(a), Tokenize(b))
  {
    hide Scan;
    assert a + [sep] + b == a + ([sep] + b);
    ScanSplit(a, [sep] + b, START);
    if Scan(a, START).Done? {
      var st := Scan(a, START).st;
      assert ([sep] + b)[0] == sep && ([sep] + b)[1..] == b;
      ScanOne([sep] + b, st);
      var f := st.Flush();
      assert f == START.(args := f.args);
      FinishCarries(b, f.args);
    }
  }

  /** An operator at the start of `op + b`: of `&`, `|` and `>` two make one, and no other operator is doubled. */
  predicate OperatorBefore(op: string, b: string) {
    || (op in ["&&", "||", ">>"])
    || (op in ["<", "(", ")"])
    || (op in ["&", "|", ">"] && (b == "" || b[0] != op[0]))
  }

  lemma OperatorStep(st: Scanner, op: string, b: string)
    requires st.Neutral() && OperatorBefore(op, b)
    requires !(op == "(" && st.buf != "" && st.buf[|st.buf| - 1] == '$')
    ensures var c, next, f := op[0], Second(op + b), st.Flush();
            && Width(st, c, next) == |op| && Step(st, c, next) == START.(args := f.args + [op])
            && (op + b)[0] == c && (op + b)[|op|..] == b
            && (Doubles(c) ==> c in "&|>")
  {
    assert |op + b| > 1 ==> Second(op + b) == (op + b)[1];
  }

  /**
    An operator outside quotes, escape and subshell is an argument of its own between those of the two
    sides. Excepted are a parenthesis after a dollar sign, which opens a subshell, and an operator right
    after the same one, which would be doubled with it.
   */
  lemma OperatorStandsAlone(a: string, op: string, b: string)
    requires Scan(a, START).Done? && Scan(a, START).st.Neutral() && OperatorBefore(op, b)
    requires var buf := Scan(a, START).st.buf;
             && !(op == "(" && buf != "" && buf[|buf| - 1] == '$')
             && !(a != "" && a[|a| - 1] == op[0] && op[0] in "&|>" && buf == "")
    ensures Tokenize(a + op + b)
            == if Scan(a, START).st.Full() then Error
               else Both(Tokenize(a), Both(Tokens([op]), Tokenize(b)))
  {
    hide Scan;
    var st, tail := Scan(a, START).st, op + b;
    assert a + op + b == a + tail;
    OperatorStep(st, op, b);
    hide Step, OperatorBefore;
    ScanSplit(a, tail, START);
    ScanOne(tail, st);
    if !st.Full() {
      var f := st.Flush();
      FinishCarries(b, f.args + [op]);
      if Tokenize(b).Tokens? {
        assert f.args + [op] + Tokenize(b).args == f.args + ([op] + Tokenize(b).args);
      }
    }
  }

  // ---- A quoting printer and its round trip -----------------------------------------------

  /** How a piece of an argument is written; a subshell is opened, may hold lone parentheses, and is closed. */
  datatype Style = Bare | Escaping | SingleQuoting | DoubleQuoting | Opening | Paren | Closing

  datatype Piece = Piece(text: string, style: Style)

  /** An argument written in pieces, one right after the other. */
  type Word = seq<Piece>

  function Escaped(text: string): string {
    if text == "" then "" else ['\\', text[0]] + Escaped(text[1..])
  }

  function PrintPiece(p: Piece): string {
    match p.style
    case Escaping => Escaped(p.text)
    case SingleQuoting => "'" + p.text + "'"
    case DoubleQuoting => "\"" + p.text + "\""
    case _ => p.text
  }

  function PrintWord(w: Word): string {
    if w == [] then "" else PrintPiece(w[0]) + PrintWord(w[1..])
  }

  function Text(w: Word): string {
    if w == [] then "" else w[0].text + Text(w[1..])
  }

  function Print(words: seq<Word>): string {
    if words == [] then ""
    else if |words| == 1 then PrintWord(words[0])
    else PrintWord(words[0]) + " " + Print(words[1..])
  }

  function Texts(words: seq<Word>): seq<string> {
    if words == [] then [] else [Text(words[0])] + Texts(words[1..])
  }

  /** In this mode the character is taken as it is. */
  predicate Taken(c: char, depth: nat, single: bool, double: bool) {
    && (single ==> c != '\'') && (double ==> c != '\"')
    && (!single && !double ==>
          && c != '\'' && c != '\"' && c != '\\'
          && (if depth == 0 then !IsOperator(c) && c != ' ' && c != '\n' else c != '(' && c != ')'))
  }

  predicate AllTaken(text: string, depth: nat, single: bool, double: bool) {
    forall c :: c in text ==> Taken(c, depth, single, double)
  }

  /** A text its style can carry inside `depth` subshells and after character `last`. */
  predicate Fits(p: Piece, depth: nat, last: char) {
    && p.text != "" && NUL !in p.text
    && match p.style
       case Bare => AllTaken(p.text, depth, false, false)
       case Escaping => true
       case SingleQuoting => AllTaken(p.text, depth, true, false)
       case DoubleQuoting => AllTaken(p.text, depth, false, true)
       case Opening => p.text == "$("
       case Paren => p.text == "(" && depth > 0 && last != '$'
       case Closing => p.text == ")" && depth > 0
  }

  function Depth(p: Piece, depth: nat): nat {
    if p.style.Opening? then depth + 1 else if p.style.Closing? && depth > 0 then depth - 1 else depth
  }

  /** The pieces fit one after the other and close every subshell. */
  predicate Formed(w: Word, depth: nat, last: char) {
    if w == [] then depth == 0
    else Fits(w[0], depth, last) && Formed(w[1..], Depth(w[0], depth), w[0].text[|w[0].text| - 1])
  }

  predicate Printable(w: Word) {
    w != [] && Formed(w, 0, NUL)
  }

  /** A closing quote is one more character to read. */
  function Cap(p: Piece): nat {
    if p.style.SingleQuoting? || p.style.DoubleQuoting? then MAX_CMD_LEN - 2 else MAX_CMD_LEN - 1
  }

  /** The longest text that survives: one more character if nothing follows it, not even a quote. */
  function Limit(w: Word, last: bool): nat
    requires w != []
  {
    if last then Cap(w[|w| - 1]) else MAX_CMD_LEN - 2
  }

  predicate Within(words: seq<Word>) {
    forall i :: 0 <= i < |words| ==> words[i] != [] && |Text(words[i])| <= Limit(words[i], i == |words| - 1)
  }

  lemma ScanOne(s: string, st: Scanner)
    requires s != ""
    ensures Width(st, s[0], Second(s)) <= |s|
    ensures Scan(s, st) == if st.Full() then TooLong
                           else Scan(s[Width(st, s[0], Second(s))..], Step(st, s[0], Second(s)))
  {
  }

  lemma ScanNothing(st: Scanner)
    ensures Scan("", st) == Done(st)
  {
  }

  lemma ScanChar(c: char, st: Scanner)
    ensures Scan([c], st) == if st.Full() then TooLong else Done(Step(st, c, NUL))
  {
    assert [c][1..] == "";
    ScanOne([c], st);
  }

  lemma ScanEscape(c: char, tail: string, st: Scanner)
    requires !st.single && !st.double && !st.escaped
    ensures Scan(['\\', c] + tail, st) == if st.Full() then TooLong else Scan(tail, st.Push(c))
  {
    hide Scan;
    var s, st1 := ['\\', c] + tail, st.(escaped := true);
    assert s[0] == '\\' && s[1] == c && s[1..][0] == c && s[1..][1..] == tail;
    ScanOne(s, st);
    assert Step(st, s[0], Second(s)) == st1;
    ScanOne(s[1..], st1);
    assert Step(st1, c, Second(s[1..])) == st.Push(c);
  }

  lemma {:induction false} ScanEscaped(text: string, tail: string, st: Scanner)
    requires !st.single && !st.double && !st.escaped && |st.buf| <= MAX_CMD_LEN - 1
    ensures Scan(Escaped(text) + tail, st)
            == if text != "" && |st.buf| + |text| > MAX_CMD_LEN - 1 then TooLong
               else Scan(tail, st.(buf := st.buf + text))
    decreases |text|
  {
    hide Scan;
    if text == "" {
      assert Escaped(text) + tail == tail;
      assert st.buf + text == st.buf;
    } else {
      var rest := Escaped(text[1..]) + tail;
      assert Escaped(text) + tail == ['\\', text[0]] + rest;
      ScanEscape(text[0], rest, st);
      if !st.Full() {
        ScanEscaped(text[1..], tail, st.Push(text[0]));
        assert st.buf + [text[0]] + text[1..] == st.buf + text;
      }
    }
  }

  lemma StepTaken(st: Scanner, c: char, next: char)
    requires !st.escaped && Taken(c, st.depth, st.single, st.double)
    ensures Step(st, c, next) == st.Push(c) && Width(st, c, next) == 1
  {
  }

  /** Characters that are taken as they are. */
  lemma {:induction false} ScanTaken(text: string, tail: string, st: Scanner)
    requires !st.escaped && AllTaken(text, st.depth, st.single, st.double) && |st.buf| <= MAX_CMD_LEN - 1
    ensures Scan(text + tail, st)
            == if text != "" && |st.buf| + |text| > MAX_CMD_LEN - 1 then TooLong
               else Scan(tail, st.(buf := st.buf + text))
    decreases |text|
  {
    hide Scan, Step, Splits, Taken;
    if text == "" {
      assert text + tail == tail;
      assert st.buf + text == st.buf;
    } else {
      var s := text + tail;
      assert s[0] == text[0] && s[1..] == text[1..] + tail && text[0] in text;
      StepTaken(st, text[0], Second(s));
      ScanOne(s, st);
      if !st.Full() {
        assert AllTaken(text[1..], st.depth, st.single, st.double);
        ScanTaken(text[1..], tail, st.Push(text[0]));
        assert st.buf + [text[0]] + text[1..] == st.buf + text;
      }
    }
  }

  lemma ScanQuote(q: char, tail: string, st: Scanner)
    requires !st.escaped && ((q == '\'' && !st.double) || (q == '\"' && !st.single))
    ensures Scan([q] + tail, st)
            == if st.Full() then TooLong
               else Scan(tail, if q == '\'' then st.(single := !st.single) else st.(double := !st.double))
  {
    hide Scan;
    var s := [q] + tail;
    assert s[0] == q && s[1..] == tail;
    ScanOne(s, st);
  }

  /** A piece in quotes `q`. */
  lemma ScanQuoted(q: char, text: string, tail: string, st: Scanner)
    requires !st.single && !st.double && !st.escaped && |st.buf| <= MAX_CMD_LEN - 1
    requires text != "" && (q == '\'' || q == '\"') && AllTaken(text, st.depth, q == '\'', q == '\"')
    ensures Scan([q] + text + [q] + tail, st)
            == if |st.buf| + |text| > MAX_CMD_LEN - 2 then TooLong else Scan(tail, st.(buf := st.buf + text))
  {
    hide Scan, AllTaken;
    var inside := if q == '\'' then st.(single := true) else st.(double := true);
    var close := [q] + tail;
    assert [q] + text + [q] + tail == [q] + (text + close);
    ScanQuote(q, text + close, st);
    if !st.Full() {
      ScanTaken(text, close, inside);
      ScanQuote(q, tail, inside.(buf := st.buf + text));
    }
  }

  /** `last` is the last character of the argument so far, which a subshell has. */
  predicate Follows(st: Scanner, last: char) {
    && !st.single && !st.double && !st.escaped && |st.buf| <= MAX_CMD_LEN - 1
    && (st.depth > 0 ==> st.buf != "" && st.buf[|st.buf| - 1] == last)
  }

  /** A parenthesis that belongs to the argument. */
  lemma ScanParen(p: Piece, last: char, tail: string, st: Scanner)
    requires Follows(st, last) && (p.style.Paren? || p.style.Closing?) && Fits(p, st.depth, last)
    ensures Scan(p.text + tail, st)
            == if st.Full() then TooLong else Scan(tail, st.(buf := st.buf + p.text, depth := Depth(p, st.depth)))
  {
    hide Scan;
    var s := p.text + tail;
    assert s[1..] == tail;
    ScanOne(s, st);
  }

  lemma ScanOpening(tail: string, st: Scanner)
    requires !st.single && !st.double && !st.escaped && |st.buf| <= MAX_CMD_LEN - 1
    ensures Scan("$(" + tail, st)
            == if |st.buf| + 2 > MAX_CMD_LEN - 1 then TooLong
               else Scan(tail, st.(buf := st.buf + "$(", depth := st.depth + 1))
  {
    hide Scan;
    var dollar, paren := st.buf + "$", "(" + tail;
    assert "$(" + tail == "$" + paren && paren[1..] == tail;
    ScanTaken("$", paren, st);
    if !st.Full() {
      ScanOne(paren, st.(buf := dollar));
      assert dollar + "(" == st.buf + "$(";
    }
  }

  /** Reading one printed piece up to what follows it. */
  lemma ScanPiece(p: Piece, last: char, tail: string, st: Scanner)
    requires Follows(st, last) && Fits(p, st.depth, last)
    ensures Scan(PrintPiece(p) + tail, st)
            == if |st.buf| + |p.text| > Cap(p) then TooLong
               else Scan(tail, st.(buf := st.buf + p.text, depth := Depth(p, st.depth)))
  {
    hide Scan, AllTaken, Escaped;
    match p.style
    case Bare => ScanTaken(p.text, tail, st);
    case Escaping => ScanEscaped(p.text, tail, st);
    case SingleQuoting => ScanQuoted('\'', p.text, tail, st);
    case DoubleQuoting => ScanQuoted('\"', p.text, tail, st);
    case Opening => ScanOpening(tail, st);
    case _ => ScanParen(p, last, tail, st);
  }

  lemma TextCons(w: Word, depth: nat, last: char)
    requires w != [] && Formed(w, depth, last)
    ensures w[0].text != "" && Text(w) == w[0].text + Text(w[1..])
    ensures PrintWord(w) == PrintPiece(w[0]) + PrintWord(w[1..])
    ensures |w| == 1 ==> Text(w) == w[0].text && PrintWord(w) == PrintPiece(w[0]) && Depth(w[0], depth) == 0
    ensures |w| > 1 ==> Text(w[1..]) != "" && Limit(w, true) == Limit(w[1..], true)
  {
    hide PrintPiece;
    if |w| > 1 {
      assert w[1..][0] == w[1] && w[1].text != "";
    }
  }

  /** Reading one printed word up to what follows it. */
  lemma {:induction false} ScanText(w: Word, last: char, tail: string, st: Scanner)
    requires w != [] && Follows(st, last) && Formed(w, st.depth, last)
    ensures Text(w) != ""
    ensures Scan(PrintWord(w) + tail, st)
            == if |st.buf| + |Text(w)| > Limit(w, true) then TooLong
               else Scan(tail, st.(buf := st.buf + Text(w), depth := 0))
    decreases |w|
  {
    hide Scan, PrintPiece, PrintWord, Text;
    TextCons(w, st.depth, last);
    var p, rest := w[0], w[1..];
    if |w| == 1 {
      ScanPiece(p, last, tail, st);
    } else {
      assert PrintWord(w) + tail == PrintPiece(p) + (PrintWord(rest) + tail);
      ScanPiece(p, last, PrintWord(rest) + tail, st);
      if |st.buf| + |p.text| <= Cap(p) {
        var next := st.(buf := st.buf + p.text, depth := Depth(p, st.depth));
        ScanText(rest, p.text[|p.text| - 1], tail, next);
        assert st.buf + p.text + Text(rest) == st.buf + (p.text + Text(rest));
      }
    }
  }

  lemma ScanSpace(tail: string, st: Scanner)
    requires st.Neutral() && st.buf != "" && tail != "" && tail[0] == ' '
    ensures Scan(tail, st) == if st.Full() then TooLong else Scan(tail[1..], st.(args := st.args + [st.buf], buf := ""))
  {
    ScanOne(tail, st);
  }

  lemma WithinOne(words: seq<Word>)
    requires |words| == 1 && words[0] != []
    ensures Within(words) <==> |Text(words[0])| <= Limit(words[0], true)
  {
  }

  lemma WithinCons(words: seq<Word>)
    requires |words| > 1 && words[0] != []
    ensures Within(words) <==> |Text(words[0])| <= Limit(words[0], false) && Within(words[1..])
  {
    var rest := words[1..];
    assert forall i :: 0 < i < |words| ==> words[i] == rest[i - 1];
    if |Text(words[0])| <= Limit(words[0], false) && Within(rest) {
      forall i | 0 <= i < |words|
        ensures words[i] != [] && |Text(words[i])| <= Limit(words[i], i == |words| - 1)
      {
        assert 0 < i ==> rest[i - 1] != [] && |Text(rest[i - 1])| <= Limit(rest[i - 1], i - 1 == |rest| - 1);
      }
    }
    if Within(words) {
      forall i | 0 <= i < |rest|
        ensures rest[i] != [] && |Text(rest[i])| <= Limit(rest[i], i == |rest| - 1)
      {
        assert words[i + 1] != [] && |Text(words[i + 1])| <= Limit(words[i + 1], i + 1 == |words| - 1);
      }
    }
  }

  /** A printed word with a space after it ends as one more argument. */
  lemma ScanWord(w: Word, more: string, st: Scanner)
    requires Printable(w) && st.Neutral() && st.buf == ""
    ensures Scan(PrintWord(w) + (" " + more), st)
            == if |Text(w)| > Limit(w, false) then TooLong else Scan(more, st.(args := st.args + [Text(w)]))
  {
    hide Scan, PrintWord, Text;
    var tail := " " + more;
    assert tail[1..] == more && st.buf + Text(w) == Text(w);
    ScanText(w, NUL, tail, st);
    ScanSpace(tail, st.(buf := Text(w)));
  }

  /** A printed word at the end of the input. */
  lemma ScanLastWord(w: Word, st: Scanner)
    requires Printable(w) && st.Neutral() && st.buf == ""
    ensures Finish(Scan(PrintWord(w), st)) == if |Text(w)| > Limit(w, true) then Error else Tokens(st.args + [Text(w)])
  {
    hide Scan, PrintWord, Text;
    assert PrintWord(w) + "" == PrintWord(w) && st.buf + Text(w) == Text(w);
    ScanText(w, NUL, "", st);
    ScanNothing(st.(buf := Text(w)));
  }

  lemma PrintOne(words: seq<Word>)
    requires |words| == 1
    ensures Print(words) == PrintWord(words[0]) && Texts(words) == [Text(words[0])]
  {
    hide PrintWord;
  }

  lemma PrintCons(words: seq<Word>)
    requires |words| > 1
    ensures Print(words) == PrintWord(words[0]) + (" " + Print(words[1..]))
    ensures Texts(words) == [Text(words[0])] + Texts(words[1..])
  {
    hide PrintWord;
  }

  lemma {:induction false} ScanPrinted(words: seq<Word>, st: Scanner)
    requires words != [] && st.Neutral() && st.buf == ""
    requires forall i :: 0 <= i < |words| ==> Printable(words[i])
    ensures Finish(Scan(Print(words), st)) == if Within(words) then Tokens(st.args + Texts(words)) else Error
    decreases |words|
  {
    hide Scan, PrintWord, Within, Limit, Print, Texts, Text, Formed;
    var w, rest := words[0], words[1..];
    assert Printable(w);
    if |words| == 1 {
      PrintOne(words);
      ScanLastWord(w, st);
      WithinOne(words);
    } else {
      PrintCons(words);
      ScanWord(w, Print(rest), st);
      WithinCons(words);
      if |Text(w)| <= Limit(w, false) {
        ScanPrinted(rest, st.(args := st.args + [Text(w)]));
        assert st.args + [Text(w)] + Texts(rest) == st.args + Texts(words);
      }
    }
  }

  lemma EmptyWords(words: seq<Word>)
    requires words == []
    ensures Print(words) == "" && Within(words) && Texts(words) == []
  {
  }

  /** Tokenizing undoes printing exactly when every word is short enough; otherwise it is an error. */
  lemma RoundTrip(words: seq<Word>)
    requires forall i :: 0 <= i < |words| ==> Printable(words[i])
    ensures Tokenize(Print(words)) == if Within(words) then Tokens(Texts(words)) else Error
  {
    hide Scan, Print, Within;
    if words == [] {
      assert Print(words) == "" && Within(words) by { EmptyWords(words); }
      ScanNothing(START);
    } else {
      ScanPrinted(words, START);
      assert [] + Texts(words) == Texts(words);
    }
  }

  /** A quote that is never closed takes the rest of the input as it stands. */
  lemma UnclosedQuote(a: string, q: char, text: string)
    requires Scan(a, START).Done? && Scan(a, START).st.Neutral() && (q == '\'' || q == '\"')
    requires text != "" && q !in text
    ensures Tokenize(a + [q] + text) == Tokenize(a + Escaped(text))
  {
    hide Scan, Escaped;
    ScanSound(a, START);
    var st := Scan(a, START).st;
    var inside := if q == '\'' then st.(single := true) else st.(double := true);
    assert a + [q] + text == a + ([q] + text) && text + "" == text && Escaped(text) + "" == Escaped(text);
    assert Escaped(text) != "" && Escaped(text)[0] == '\\' by { EscapedStarts(text); }
    ScanSplit(a, [q] + text, START);
    ScanSplit(a, Escaped(text), START);
    ScanQuote(q, text, st);
    ScanEscaped(text, "", st);
    if !st.Full() {
      ScanTaken(text, "", inside);
      ScanNothing(inside.(buf := st.buf + text));
    }
    ScanNothing(st.(buf := st.buf + text));
  }

  lemma EscapedStarts(text: string)
    requires text != ""
    ensures Escaped(text) != "" && Escaped(text)[0] == '\\'
  {
  }

  // ---- Normal form ------------------------------------------------------------------------

  function Join(args: seq<string>): string {
    if args == [] then "" else if |args| == 1 then args[0] else Join(args[..|args| - 1]) + " " + args[|args| - 1]
  }

  /** Finished arguments, each followed by a space. */
  function Spaced(args: seq<string>): string {
    if args == [] then "" else Spaced(args[..|args| - 1]) + args[|args| - 1] + " "
  }

  function Canonical(args: seq<string>, buf: string): string {
    Spaced(args) + buf
  }

  predicate Plain(s: string) {
    '\'' !in s && '\"' !in s && '\\' !in s
  }

  /** The scanner state is what its own canonical text leads to. */
  predicate SelfReading(st: Scanner) {
    !st.single && !st.double && !st.escaped && Sound(st) && Scan(Canonical(st.args, st.buf), START) == Done(st)
  }

  lemma CanonicalAdd(args: seq<string>, buf: string, more: string)
    ensures Canonical(args, buf + more) == Canonical(args, buf) + more
    ensures Canonical(args + [buf], more) == Canonical(args, buf) + " " + more
  {
    assert (args + [buf])[..|args|] == args;
    assert Spaced(args + [buf]) == Spaced(args) + buf + " ";
    assert Spaced(args) + (buf + more) == Spaced(args) + buf + more;
  }

  lemma SelfReadingPush(st: Scanner, c: char)
    requires SelfReading(st) && !st.Full() && !Splits(st, c)
    requires Step(st, c, NUL).buf == st.buf + [c]
    ensures SelfReading(Step(st, c, NUL))
  {
    hide Scan, Canonical;
    CanonicalAdd(st.args, st.buf, [c]);
    ScanSplit(Canonical(st.args, st.buf), [c], START);
    ScanChar(c, st);
  }

  lemma SpacedEnds(args: seq<string>)
    ensures Spaced(args) == "" || Spaced(args)[|Spaced(args)| - 1] == ' '
  {
  }

  lemma SelfReadingFlush(st: Scanner)
    requires SelfReading(st) && !st.Full() && st.depth == 0
    ensures SelfReading(st.Flush())
    ensures var f := st.Flush(); var text := Canonical(f.args, ""); text == "" || text[|text| - 1] == ' '
  {
    hide Scan, Spaced;
    var text, f := Canonical(st.args, st.buf), st.Flush();
    if st.buf == "" {
      SpacedEnds(st.args);
    } else {
      CanonicalAdd(st.args, st.buf, "");
      assert Canonical(f.args, "") == text + " ";
      ScanSplit(text, " ", START);
      ScanChar(' ', st);
    }
  }

  lemma ScanOperator(f: Scanner, c: char, op: string)
    requires f.Neutral() && f.buf == "" && IsOperator(c) && (op == [c] || (Doubles(c) && op == [c, c]))
    ensures Scan(op + " ", f) == Done(f.(args := f.args + [op]))
  {
    hide Scan;
    var st := f.(args := f.args + [op]);
    ScanOne(op + " ", f);
    assert Step(f, c, Second(op + " ")) == st;
    assert (op + " ")[|op|..] == " ";
    ScanChar(' ', st);
  }

  lemma SelfReadingAdd(f: Scanner, c: char, op: string)
    requires SelfReading(f) && f.Neutral() && f.buf == ""
    requires IsOperator(c) && (op == [c] || (Doubles(c) && op == [c, c]))
    requires var text := Canonical(f.args, ""); text == "" || text[|text| - 1] == ' '
    ensures SelfReading(f.(args := f.args + [op]))
  {
    hide Scan, Canonical, Step, Splits;
    var text := Canonical(f.args, "");
    CanonicalAdd(f.args, "", op);
    CanonicalAdd(f.args, op, "");
    assert "" + op == op && text + op + " " + "" == text + (op + " ");
    ScanSplit(text, op + " ", START);
    ScanOperator(f, c, op);
  }

  lemma SelfReadingOperator(st: Scanner, c: char, next: char)
    requires SelfReading(st) && !st.Full() && Splits(st, c)
    ensures SelfReading(Step(st, c, next))
  {
    hide Scan, Canonical;
    assert !st.single && !st.double && !st.escaped;
    hide SelfReading;
    SelfReadingFlush(st);
    SelfReadingAdd(st.Flush(), c, if Doubles(c) && next == c then [c, c] else [c]);
  }

  lemma SelfReadingStep(st: Scanner, c: char, next: char)
    requires SelfReading(st) && !st.Full() && c != '\'' && c != '\"' && c != '\\'
    ensures SelfReading(Step(st, c, next))
  {
    assert !st.single && !st.double && !st.escaped;
    hide SelfReading;
    if Splits(st, c) {
      SelfReadingOperator(st, c, next);
    } else if Step(st, c, NUL).buf == st.buf + [c] {
      SelfReadingPush(st, c);
    } else {
      SelfReadingFlush(st);
    }
  }

  lemma PlainRest(s: string, w: nat)
    requires Plain(s) && s != "" && w <= |s|
    ensures Plain(s[w..]) && s[0] != '\'' && s[0] != '\"' && s[0] != '\\'
  {
    assert s[0] in s;
  }

  lemma {:induction false} ScanSelfReading(s: string, st: Scanner)
    requires Plain(s) && SelfReading(st) && Scan(s, st).Done?
    ensures SelfReading(Scan(s, st).st)
    decreases |s|
  {
    if s != "" {
      hide SelfReading, Step, Splits, Plain;
      var c, next := s[0], Second(s);
      PlainRest(s, Width(st, c, next));
      SelfReadingStep(st, c, next);
      ScanSelfReading(s[Width(st, c, next)..], Step(st, c, next));
    }
  }

  /** For input without quotes and backslashes, joining the tokens with spaces gives the same tokens again. */
  lemma NormalForm(s: string)
    requires Plain(s) && Tokenize(s).Tokens?
    ensures Tokenize(Join(Tokenize(s).args)) == Tokenize(s)
  {
    hide Scan, Canonical, Join, Step, Splits, Plain;
    StartSelfReading();
    ScanSelfReading(s, START);
    var e := Scan(s, START).st;
    JoinIsCanonical(e.args, e.buf);
    if e.buf == "" && e.args != [] {
      var j := Join(e.args);
      ScanSplit(j, " ", START);
      assert Scan(j, START).Done?;
      SpaceFlushes(Scan(j, START).st, e);
    }
  }

  lemma StartSelfReading()
    ensures SelfReading(START)
  {
  }

  lemma SpaceFlushes(st: Scanner, e: Scanner)
    requires Scan(" ", st) == Done(e) && e.buf == "" && !e.single && !e.double && !e.escaped
    ensures e == st.Flush() && e == e.Flush()
  {
    ScanChar(' ', st);
  }

  lemma {:induction false} JoinIsSpaced(args: seq<string>)
    requires args != []
    ensures Join(args) + " " == Spaced(args)
    decreases |args|
  {
    var init, last := args[..|args| - 1], args[|args| - 1];
    if init != [] {
      JoinIsSpaced(init);
      assert Join(args) + " " == Spaced(init) + last + " ";
    } else {
      assert "" + last == last;
    }
  }

  lemma JoinIsCanonical(args: seq<string>, buf: string)
    ensures buf != "" ==> Canonical(args, buf) == Join(args + [buf])
    ensures buf == "" && args != [] ==> Canonical(args, buf) == Join(args) + " "
    ensures Canonical([], "") == "" == Join([])
  {
    if args != [] {
      JoinIsSpaced(args);
      assert (args + [buf])[..|args|] == args;
      assert Join(args + [buf]) == Join(args) + " " + buf;
    }
  }
}
