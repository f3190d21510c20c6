/** The command line a worker reads from a connection: the carriage-return cut and the sscanf of worker.c. */
module Commands {
  import opened Strings

  const NAME_WIDTH: nat := 31
  const TOPIC_WIDTH: nat := 63
  const PAYLOAD_WIDTH: nat := 799

  /** What sscanf stored, and how many conversions it made (an end of input counts as none). */
  datatype Command = Command(items: nat, name: string, topic: string, payload: string)

  /** The bytes up to the first carriage return. */
  function Chomp(line: string): string {
    line[..Index(line, '\r')]
  }

  /** The bytes a %<width>s conversion stores, from the first byte that is not white space. */
  function WordLength(s: string, width: nat): (n: nat)
    ensures n <= |s| && n <= width
  {
    if s == "" || width == 0 || IsSpace(s[0]) then 0 else 1 + WordLength(s[1..], width - 1)
  }

  function RestLength(s: string): (n: nat)
    ensures n <= |s| && n <= PAYLOAD_WIDTH
  {
    var n := Index(s, '\n');
    if n <= PAYLOAD_WIDTH then n else PAYLOAD_WIDTH
  }

  function ScanPayload(name: string, topic: string, rest: string): Command {
    var c := TrimLeft(rest);
    var k := RestLength(c);
    if k == 0 then Command(2, name, topic, "") else Command(3, name, topic, c[..k])
  }

  function ScanTopic(name: string, rest: string): Command {
    var b := TrimLeft(rest);
    var m := WordLength(b, TOPIC_WIDTH);
    if m == 0 then Command(1, name, "", "") else ScanPayload(name, b[..m], b[m..])
  }

  function Scan(line: string): (c: Command)
    ensures c.items <= 3 && |c.name| <= NAME_WIDTH && |c.topic| <= TOPIC_WIDTH && |c.payload| <= PAYLOAD_WIDTH
  {
    var a := TrimLeft(line);
    var n := WordLength(a, NAME_WIDTH);
    if n == 0 then Command(0, "", "", "") else ScanTopic(a[..n], a[n..])
  }

  // ---- What an agent sends is what the worker reads ----------------------------------------

  predicate Solid(s: string) {
    s != "" && forall c :: c in s ==> !IsSpace(c)
  }

  lemma {:induction false} WordSolid(w: string, rest: string, width: nat)
    requires (forall c :: c in w ==> !IsSpace(c)) && |w| <= width && (rest != "" ==> IsSpace(rest[0]))
    ensures WordLength(w + rest, width) == |w|
  {
    if w == "" {
      assert w + rest == rest;
    } else {
      assert (w + rest)[1..] == w[1..] + rest;
      WordSolid(w[1..], rest, width - 1);
    }
  }

  lemma TopicScanned(name: string, topic: string, rest: string)
    requires Solid(topic) && |topic| <= TOPIC_WIDTH && (rest != "" ==> IsSpace(rest[0]))
    ensures ScanTopic(name, " " + (topic + rest)) == ScanPayload(name, topic, rest)
  {
    SkipSpace(topic + rest);
    WordSolid(topic, rest, TOPIC_WIDTH);
    hide WordLength, TrimLeft;
    assert (topic + rest)[..|topic|] == topic && (topic + rest)[|topic|..] == rest;
  }

  lemma NameScanned(name: string, rest: string)
    requires Solid(name) && |name| <= NAME_WIDTH && rest != "" && IsSpace(rest[0])
    ensures Scan(name + rest) == ScanTopic(name, rest)
  {
    assert TrimLeft(name + rest) == name + rest;
    WordSolid(name, rest, NAME_WIDTH);
    hide WordLength, TrimLeft;
    assert (name + rest)[..|name|] == name && (name + rest)[|name|..] == rest;
  }

  /** A line of a name, a topic and a payload within the widths is scanned back into the three. */
  lemma ScanThree(name: string, topic: string, payload: string)
    requires Solid(name) && |name| <= NAME_WIDTH && Solid(topic) && |topic| <= TOPIC_WIDTH
    requires payload != "" && !IsSpace(payload[0]) && '\n' !in payload && |payload| <= PAYLOAD_WIDTH
    ensures Scan(name + " " + topic + " " + payload) == Command(3, name, topic, payload)
  {
    var b := " " + (topic + (" " + payload));
    assert name + " " + topic + " " + payload == name + b;
    NameScanned(name, b);
    TopicScanned(name, topic, " " + payload);
    SkipSpace(payload);
    IndexUnique(payload, '\n', |payload|);
    assert payload[..|payload|] == payload;
  }

  lemma ScanTwo(name: string, topic: string)
    requires Solid(name) && |name| <= NAME_WIDTH && Solid(topic) && |topic| <= TOPIC_WIDTH
    ensures Scan(name + " " + topic) == Command(2, name, topic, "")
  {
    assert name + " " + topic == name + (" " + (topic + ""));
    NameScanned(name, " " + (topic + ""));
    TopicScanned(name, topic, "");
  }

  lemma SkipSpace(s: string)
    requires s != "" && !IsSpace(s[0])
    ensures TrimLeft(" " + s) == s
  {
    assert (" " + s)[1..] == s;
  }

  // ---- Any line ----------------------------------------------------------------------------

  /** A %<width>s conversion stores `w`: it ends at white space, at the end, or when the width is used up. */
  predicate Munched(w: string, after: string, width: nat) {
    && (forall c :: c in w ==> !IsSpace(c)) && |w| <= width
    && (|w| == width || after == "" || IsSpace(after[0]))
  }

  lemma {:induction false} WordMunched(w: string, after: string, width: nat)
    requires Munched(w, after, width)
    ensures WordLength(w + after, width) == |w|
    ensures (w + after)[..|w|] == w && (w + after)[|w|..] == after
  {
    if w == "" {
      assert w + after == after;
    } else {
      assert (w + after)[1..] == w[1..] + after;
      WordMunched(w[1..], after, width - 1);
    }
  }

  lemma PayloadRest(name: string, topic: string, gap: string, rest: string, more: string)
    requires Blank(gap) && (rest == "" ==> more == "") && (rest != "" ==> !IsSpace(rest[0]))
    requires '\n' !in rest && (more == "" || more[0] == '\n')
    ensures ScanPayload(name, topic, gap + (rest + more))
         == if rest == "" then Command(2, name, topic, "")
            else Command(3, name, topic, if |rest| <= PAYLOAD_WIDTH then rest else rest[..PAYLOAD_WIDTH])
  {
    var all := rest + more;
    TrimLeftBlank(gap, all);
    assert all[..|rest|] == rest;
    IndexUnique(all, '\n', |rest|);
    assert |rest| > PAYLOAD_WIDTH ==> all[..PAYLOAD_WIDTH] == rest[..PAYLOAD_WIDTH];
  }

  lemma TopicRest(name: string, gap: string, topic: string, after: string)
    requires Blank(gap) && Munched(topic, after, TOPIC_WIDTH) && (topic == "" ==> after == "")
    ensures ScanTopic(name, gap + (topic + after))
         == if topic == "" then Command(1, name, "", "") else ScanPayload(name, topic, after)
  {
    TrimLeftBlank(gap, topic + after);
    WordMunched(topic, after, TOPIC_WIDTH);
    hide WordLength, TrimLeft;
  }

  /**
    Any line with a word in it, cut the only way there is: white space is skipped before each word, a word
    longer than its width is carried on in the next, and the rest up to a newline is the payload, cut at 799
    bytes. How many of the three were found is what sscanf returns.
   */
  lemma ScanWords(lead: string, name: string, gap: string, topic: string, gap2: string, rest: string, more: string)
    requires Blank(lead) && Blank(gap) && Blank(gap2)
    requires name != "" && Munched(name, gap + (topic + (gap2 + (rest + more))), 31)
    requires Munched(topic, gap2 + (rest + more), 63) && (topic == "" ==> gap2 + (rest + more) == "")
    requires '\n' !in rest && (rest == "" ==> more == "") && (rest != "" ==> !IsSpace(rest[0]))
    requires more == "" || more[0] == '\n'
    ensures Scan(lead + (name + (gap + (topic + (gap2 + (rest + more))))))
         == if topic == "" then Command(1, name, "", "")
            else if rest == "" then Command(2, name, topic, "")
            else Command(3, name, topic, if |rest| <= 799 then rest else rest[..799])
  {
    var behind := gap2 + (rest + more);
    var after := gap + (topic + behind);
    TrimLeftBlank(lead, name + after);
    WordMunched(name, after, NAME_WIDTH);
    hide WordLength, TrimLeft, Munched, RestLength;
    TopicRest(name, gap, topic, behind);
    if topic != "" {
      PayloadRest(name, topic, gap2, rest, more);
    }
  }

  lemma ScanBlank(line: string)
    requires Blank(line)
    ensures Scan(line) == Command(0, "", "", "")
  {
    assert line + "" == line;
    TrimLeftBlank(line, "");
  }
}
