/** Role-based access control of rbac.c: the INI parser, its printer, and the access decisions. */
module Rbac {
  import opened Strings
  import opened Wrappers

  const MAX_ROLES: nat := 20
  const MAX_ENTRIES: nat := 20
  const MAX_MAPPINGS: nat := 50
  const NAME_MAX: nat := 63
  const PATTERN_MAX: nat := 127
  const LINE_SIZE: nat := 512

  datatype Perms = Perms(names: seq<string>, wildcard: bool)

  datatype Role = Role(name: string, subscribe: Perms, unsubscribe: Perms, publish: Perms, setKeys: Perms)

  datatype Mapping = Mapping(pattern: string, role: string)

  datatype Config = Config(roles: seq<Role>, mappings: seq<Mapping>)

  const NO_PERMS: Perms := Perms([], false)

  // ---- Parsing ----------------------------------------------------------------------------

  /** strncpy of at most `n` bytes. */
  function Cut(s: string, n: nat): (r: string)
    ensures r <= s && |r| == if |s| <= n then |s| else n
  {
    if |s| <= n then s else s[..n]
  }

  /** How much one fgets into line[512] takes: through the newline, or 511 bytes. */
  function LineLength(text: string): (n: nat)
    ensures n <= |text| && (text != "" ==> 0 < n)
  {
    var k := Index(text, '\n');
    var n := if k < |text| then k + 1 else k;
    if n <= LINE_SIZE - 1 then n else LINE_SIZE - 1
  }

  /** The successive results of strtok(list, ","). */
  function Pieces(s: string): seq<string>
    decreases |s|
  {
    if s == "" then []
    else
      var k := Index(s, ',');
      (if k == 0 then [] else [s[..k]]) + (if k < |s| then Pieces(s[k + 1..]) else [])
  }

  /** The loop of parse_list: it stops looking, even for a wildcard, once 20 names are stored. */
  function Collect(pieces: seq<string>, acc: Perms): Perms
    decreases |pieces|
  {
    if pieces == [] || |acc.names| >= MAX_ENTRIES then acc
    else
      var item := Trim(pieces[0]);
      Collect(pieces[1..],
              if item == "*" then acc.(wildcard := true)
              else if item != "" then acc.(names := acc.names + [Cut(item, NAME_MAX)])
              else acc)
  }

  function ParseList(s: string): Perms {
    Collect(Pieces(s), NO_PERMS)
  }

  /** The parser's variables: `inRole` says that current_role is the last role, not NULL. */
  datatype Parser = Parser(config: Config, inMap: bool, inRole: bool)

  const INITIAL: Parser := Parser(Config([], []), false, false)

  function ParseHeader(p: Parser, t: string): Parser {
    if "[role:" <= t then
      var end := Index(t, ']');
      if end < |t| && |p.config.roles| < MAX_ROLES && 6 <= end then
        var r := Role(Cut(t[6..end], NAME_MAX), NO_PERMS, NO_PERMS, NO_PERMS, NO_PERMS);
        Parser(p.config.(roles := p.config.roles + [r]), false, true)
      else
        p.(inMap := false)
    else if t == "[map]" then
      p.(inMap := true, inRole := false)
    else
      p
  }

  function SetList(r: Role, key: string, perms: Perms): Role {
    if key == "SUBSCRIBE" then r.(subscribe := perms)
    else if key == "UNSUBSCRIBE" then r.(unsubscribe := perms)
    else if key == "PUBLISH" then r.(publish := perms)
    else if key == "SET" then r.(setKeys := perms)
    else r
  }

  function ParsePair(p: Parser, key: string, val: string): Parser {
    var c := p.config;
    if p.inMap && |c.mappings| < MAX_MAPPINGS then
      p.(config := c.(mappings := c.mappings + [Mapping(Cut(key, PATTERN_MAX), Cut(val, NAME_MAX))]))
    else if p.inRole && c.roles != [] then
      var last := |c.roles| - 1;
      p.(config := c.(roles := c.roles[last := SetList(c.roles[last], key, ParseList(val))]))
    else
      p
  }

  function ParseLine(p: Parser, line: string): Parser {
    var t := Trim(line);
    if t == "" || t[0] == ';' then p
    else if t[0] == '[' then ParseHeader(p, t)
    else
      var eq := Index(t, '=');
      if eq < |t| then ParsePair(p, Trim(t[..eq]), Trim(t[eq + 1..])) else p
  }

  function ParseText(p: Parser, text: string): Parser
    decreases |text|
  {
    if text == "" then p
    else ParseText(ParseLine(p, text[..LineLength(text)]), text[LineLength(text)..])
  }

  function Parse(text: string): Config {
    ParseText(INITIAL, text).config
  }

  // ---- Printing ---------------------------------------------------------------------------

  function Items(p: Perms): seq<string> {
    (if p.wildcard then ["*"] else []) + p.names
  }

  function JoinItems(items: seq<string>): string {
    if items == [] then "" else if |items| == 1 then items[0] else items[0] + ", " + JoinItems(items[1..])
  }

  function PairLine(key: string, val: string): string {
    key + " = " + val
  }

  function RoleLines(r: Role): seq<string> {
    ["[role:" + r.name + "]",
     PairLine("SUBSCRIBE", JoinItems(Items(r.subscribe))),
     PairLine("UNSUBSCRIBE", JoinItems(Items(r.unsubscribe))),
     PairLine("PUBLISH", JoinItems(Items(r.publish))),
     PairLine("SET", JoinItems(Items(r.setKeys)))]
  }

  function RolesLines(roles: seq<Role>): seq<string> {
    if roles == [] then [] else RoleLines(roles[0]) + RolesLines(roles[1..])
  }

  function MappingLines(mappings: seq<Mapping>): seq<string> {
    if mappings == [] then [] else [PairLine(mappings[0].pattern, mappings[0].role)] + MappingLines(mappings[1..])
  }

  function ConfigLines(c: Config): seq<string> {
    RolesLines(c.roles) + ["[map]"] + MappingLines(c.mappings)
  }

  function Text(lines: seq<string>): string {
    if lines == [] then "" else lines[0] + "\n" + Text(lines[1..])
  }

  function Print(c: Config): string {
    Text(ConfigLines(c))
  }

  // ---- Configurations that print as lines -------------------------------------------------

  predicate GoodItem(s: string) {
    s != "" && s != "*" && Tight(s) && ',' !in s && '\n' !in s && NUL !in s
  }

  predicate GoodPerms(p: Perms) {
    forall i :: 0 <= i < |p.names| ==> GoodItem(p.names[i])
  }

  predicate GoodRole(r: Role) {
    && ']' !in r.name && '\n' !in r.name && NUL !in r.name
    && GoodPerms(r.subscribe) && GoodPerms(r.unsubscribe) && GoodPerms(r.publish) && GoodPerms(r.setKeys)
  }

  predicate GoodMapping(m: Mapping) {
    && m.pattern != "" && Tight(m.pattern) && m.pattern[0] != '[' && m.pattern[0] != ';'
    && '=' !in m.pattern && '\n' !in m.pattern && NUL !in m.pattern
    && Tight(m.role) && '\n' !in m.role && NUL !in m.role
  }

  predicate GoodConfig(c: Config) {
    && (forall i :: 0 <= i < |c.roles| ==> GoodRole(c.roles[i]))
    && (forall i :: 0 <= i < |c.mappings| ==> GoodMapping(c.mappings[i]))
    && (forall i :: 0 <= i < |ConfigLines(c)| ==> |ConfigLines(c)[i]| <= LINE_SIZE - 2)
  }

  // ---- What the fixed tables keep of them -------------------------------------------------

  function First<T>(s: seq<T>, n: nat): (r: seq<T>)
    ensures r <= s && |r| == if |s| <= n then |s| else n
  {
    if |s| <= n then s else s[..n]
  }

  function CutAll(names: seq<string>): (r: seq<string>)
    ensures |r| == |names| && forall i :: 0 <= i < |names| ==> r[i] == Cut(names[i], NAME_MAX)
  {
    if names == [] then [] else [Cut(names[0], NAME_MAX)] + CutAll(names[1..])
  }

  /** The first 20 names, each cut to 63 characters. */
  function KeptPerms(p: Perms): Perms {
    Perms(CutAll(First(p.names, MAX_ENTRIES)), p.wildcard)
  }

  function KeptRole(r: Role): Role {
    Role(Cut(r.name, NAME_MAX), KeptPerms(r.subscribe), KeptPerms(r.unsubscribe), KeptPerms(r.publish),
         KeptPerms(r.setKeys))
  }

  function KeptEach(rs: seq<Role>): (r: seq<Role>)
    ensures |r| == |rs| && forall i :: 0 <= i < |rs| ==> r[i] == KeptRole(rs[i])
  {
    if rs == [] then [] else [KeptRole(rs[0])] + KeptEach(rs[1..])
  }

  /** Of more than 20 roles the twentieth keeps its name but gets the lists of the very last one. */
  function Squeezed(rs: seq<Role>): seq<Role> {
    if |rs| <= MAX_ROLES then rs
    else rs[..MAX_ROLES - 1] + [rs[|rs| - 1].(name := rs[MAX_ROLES - 1].name)]
  }

  function KeptMapping(m: Mapping): Mapping {
    Mapping(Cut(m.pattern, PATTERN_MAX), Cut(m.role, NAME_MAX))
  }

  function KeptMappings(ms: seq<Mapping>): (r: seq<Mapping>)
    ensures |r| == |ms| && forall i :: 0 <= i < |ms| ==> r[i] == KeptMapping(ms[i])
  {
    if ms == [] then [] else [KeptMapping(ms[0])] + KeptMappings(ms[1..])
  }

  function Kept(c: Config): Config {
    Config(Squeezed(KeptEach(c.roles)), KeptMappings(First(c.mappings, MAX_MAPPINGS)))
  }

  predicate SmallPerms(p: Perms) {
    |p.names| <= MAX_ENTRIES && forall i :: 0 <= i < |p.names| ==> |p.names[i]| <= NAME_MAX
  }

  predicate SmallRole(r: Role) {
    && |r.name| <= NAME_MAX
    && SmallPerms(r.subscribe) && SmallPerms(r.unsubscribe) && SmallPerms(r.publish) && SmallPerms(r.setKeys)
  }

  predicate SmallMapping(m: Mapping) {
    |m.pattern| <= PATTERN_MAX && |m.role| <= NAME_MAX
  }

  /** Everything fits the fixed tables. */
  predicate Small(c: Config) {
    && |c.roles| <= MAX_ROLES && (forall i :: 0 <= i < |c.roles| ==> SmallRole(c.roles[i]))
    && |c.mappings| <= MAX_MAPPINGS && (forall i :: 0 <= i < |c.mappings| ==> SmallMapping(c.mappings[i]))
  }

  lemma SmallPermsKept(p: Perms)
    ensures KeptPerms(p) == p <==> SmallPerms(p)
  {
    var kept := KeptPerms(p).names;
    if SmallPerms(p) {
      assert kept == p.names;
    } else if |p.names| <= MAX_ENTRIES {
      var i :| 0 <= i < |p.names| && |p.names[i]| > NAME_MAX;
      assert kept[i] == Cut(p.names[i], NAME_MAX);
    }
  }

  lemma SmallRoleKept(r: Role)
    ensures KeptRole(r) == r <==> SmallRole(r)
  {
    hide KeptPerms, SmallPerms;
    SmallPermsKept(r.subscribe);
    SmallPermsKept(r.unsubscribe);
    SmallPermsKept(r.publish);
    SmallPermsKept(r.setKeys);
  }

  lemma SmallRolesKept(rs: seq<Role>)
    ensures Squeezed(KeptEach(rs)) == rs <==> |rs| <= MAX_ROLES && forall i :: 0 <= i < |rs| ==> SmallRole(rs[i])
  {
    hide KeptRole, SmallRole;
    if |rs| <= MAX_ROLES {
      forall i | 0 <= i < |rs|
        ensures KeptEach(rs)[i] == rs[i] <==> SmallRole(rs[i])
      {
        SmallRoleKept(rs[i]);
      }
      if forall i :: 0 <= i < |rs| ==> SmallRole(rs[i]) {
        assert KeptEach(rs) == rs;
      }
    }
  }

  lemma SmallMappingsKept(ms: seq<Mapping>)
    ensures KeptMappings(First(ms, MAX_MAPPINGS)) == ms
            <==> |ms| <= MAX_MAPPINGS && forall i :: 0 <= i < |ms| ==> SmallMapping(ms[i])
  {
    if |ms| <= MAX_MAPPINGS {
      var kept := KeptMappings(ms);
      assert forall i :: 0 <= i < |ms| ==> (kept[i] == ms[i] <==> SmallMapping(ms[i]));
      if forall i :: 0 <= i < |ms| ==> SmallMapping(ms[i]) {
        assert kept == ms;
      }
    }
  }

  /** The tables keep a configuration as it is exactly when it fits. */
  lemma SmallKept(c: Config)
    ensures Kept(c) == c <==> Small(c)
  {
    hide KeptEach, Squeezed, KeptMappings, SmallRole, SmallMapping;
    SmallRolesKept(c.roles);
    SmallMappingsKept(c.mappings);
  }

  // ---- Parse undoes print -----------------------------------------------------------------

  function ParseLines(p: Parser, lines: seq<string>): Parser
    decreases |lines|
  {
    if lines == [] then p else ParseLines(ParseLine(p, lines[0] + "\n"), lines[1..])
  }

  predicate Printed(line: string) {
    '\n' !in line && |line| <= LINE_SIZE - 2
  }

  /** fgets finds the lines again. */
  lemma {:induction false} TextIsLines(p: Parser, lines: seq<string>)
    requires forall i :: 0 <= i < |lines| ==> Printed(lines[i])
    ensures ParseText(p, Text(lines)) == ParseLines(p, lines)
    decreases |lines|
  {
    if lines != [] {
      var l, rest := lines[0], Text(lines[1..]);
      var text := Text(lines);
      assert text == l + ("\n" + rest) == (l + "\n") + rest;
      IndexSkip(l, "\n" + rest, '\n');
      assert text[..|l| + 1] == l + "\n" && text[|l| + 1..] == rest;
      TextIsLines(ParseLine(p, l + "\n"), lines[1..]);
    }
  }

  lemma ParseCons(p: Parser, line: string, rest: seq<string>)
    ensures ParseLines(p, [line] + rest) == ParseLines(ParseLine(p, line + "\n"), rest)
  {
    assert ([line] + rest)[1..] == rest;
  }

  lemma {:induction false} ParseLinesAppend(p: Parser, a: seq<string>, b: seq<string>)
    ensures ParseLines(p, a + b) == ParseLines(ParseLines(p, a), b)
    decreases |a|
  {
    if a == [] {
      assert a + b == b;
    } else {
      assert (a + b)[1..] == a[1..] + b;
      ParseLinesAppend(ParseLine(p, a[0] + "\n"), a[1..], b);
    }
  }

  lemma PairTrimmed(key: string, val: string)
    requires key != "" && Tight(key) && Tight(val)
    ensures Trim(PairLine(key, val) + "\n") == if val == "" then key + " =" else PairLine(key, val)
  {
    if val == "" {
      assert PairLine(key, val) + "\n" == "" + (key + " =") + " \n";
      TrimPadded("", key + " =", " \n");
    } else {
      assert PairLine(key, val) + "\n" == "" + PairLine(key, val) + "\n";
      TrimPadded("", PairLine(key, val), "\n");
    }
  }

  /** A printed pair is read back as that pair. */
  lemma PairParsed(p: Parser, key: string, val: string)
    requires key != "" && Tight(key) && key[0] != '[' && key[0] != ';' && '=' !in key && Tight(val)
    ensures ParseLine(p, PairLine(key, val) + "\n") == ParsePair(p, key, val)
  {
    hide Trim, ParsePair, ParseHeader, Index;
    PairTrimmed(key, val);
    var t := if val == "" then key + " =" else PairLine(key, val);
    var rest := if val == "" then "" else " " + val;
    assert t == (key + " ") + ("=" + rest);
    IndexSkip(key + " ", "=" + rest, '=');
    IndexUnique("=" + rest, '=', 0);
    var eq := |key| + 1;
    assert t[..eq] == "" + key + " " && t[eq + 1..] == rest;
    TrimPadded("", key, " ");
    if val == "" {
      assert rest == "" + val + "";
      TrimPadded("", val, "");
    } else {
      assert rest == " " + val + "";
      TrimPadded(" ", val, "");
    }
  }

  lemma HeaderParsed(p: Parser, name: string)
    requires ']' !in name
    ensures ParseLine(p, "[role:" + name + "]" + "\n")
            == if |p.config.roles| >= MAX_ROLES then p.(inMap := false)
               else Parser(p.config.(roles := p.config.roles + [Bare(Cut(name, NAME_MAX))]), false, true)
  {
    hide Trim, ParsePair, Index;
    var t := "[role:" + name + "]";
    assert t + "\n" == "" + t + "\n";
    TrimPadded("", t, "\n");
    assert t == ("[role:" + name) + "]";
    IndexSkip("[role:" + name, "]", ']');
    IndexUnique("]", ']', 0);
    assert t[6..|name| + 6] == name;
  }

  // ---- Lists ------------------------------------------------------------------------------

  predicate Listable(items: seq<string>) {
    forall i :: 0 <= i < |items| ==> items[i] != "" && Tight(items[i]) && ',' !in items[i]
  }

  lemma {:induction false} JoinTight(items: seq<string>)
    requires Listable(items)
    ensures Tight(JoinItems(items)) && (items != [] ==> JoinItems(items) != "")
  {
    if |items| > 1 {
      JoinTight(items[1..]);
    }
  }

  /** What one entry of a list adds. */
  function Take(acc: Perms, item: string): Perms {
    if item == "*" then acc.(wildcard := true)
    else if item != "" then acc.(names := acc.names + [Cut(item, NAME_MAX)])
    else acc
  }

  function Fold(items: seq<string>, acc: Perms): Perms
    decreases |items|
  {
    if items == [] || |acc.names| >= MAX_ENTRIES then acc else Fold(items[1..], Take(acc, items[0]))
  }

  lemma PiecesCut(first: string, rest: string)
    requires ',' !in first
    ensures Pieces(first) == if first == "" then [] else [first]
    ensures Pieces(first + ("," + rest)) == (if first == "" then [] else [first]) + Pieces(rest)
  {
    assert first[..|first|] == first;
    IndexUnique(first, ',', |first|);
    var s := first + ("," + rest);
    IndexSkip(first, "," + rest, ',');
    IndexUnique("," + rest, ',', 0);
    assert s[..|first|] == first && s[|first| + 1..] == rest;
  }

  lemma CollectCut(first: string, rest: string, acc: Perms)
    requires ',' !in first
    ensures Collect(Pieces(first), acc) == if |acc.names| >= MAX_ENTRIES then acc else Take(acc, Trim(first))
    ensures Collect(Pieces(first + ("," + rest)), acc)
            == if |acc.names| >= MAX_ENTRIES then acc else Collect(Pieces(rest), Take(acc, Trim(first)))
  {
    PiecesCut(first, rest);
    hide Pieces, Cut;
    if first == "" {
      assert [] + Pieces(rest) == Pieces(rest);
    } else {
      assert ([first] + Pieces(rest))[1..] == Pieces(rest);
    }
  }

  /** Entries that can stand between commas; an empty one stands for white space. */
  predicate Separable(items: seq<string>) {
    forall i :: 0 <= i < |items| ==> Tight(items[i]) && ',' !in items[i]
  }

  lemma {:induction false} JoinCons(items: seq<string>)
    requires items != []
    ensures JoinItems(items) == if |items| == 1 then items[0] else items[0] + ("," + (" " + JoinItems(items[1..])))
  {
    if |items| > 1 {
      var rest := JoinItems(items[1..]);
      assert items[0] + ", " + rest == items[0] + ("," + (" " + rest));
    }
  }

  lemma {:induction false} FoldCons(items: seq<string>, acc: Perms)
    requires items != []
    ensures Fold(items, acc)
            == if |acc.names| >= MAX_ENTRIES then acc
               else if |items| == 1 then Take(acc, items[0]) else Fold(items[1..], Take(acc, items[0]))
  {
    hide Take;
    assert |items| == 1 ==> items[1..] == [];
  }

  lemma {:induction false} JoinCollected(pad: string, items: seq<string>, acc: Perms)
    requires Separable(items) && items != [] && Blank(pad) && ',' !in pad
    ensures Collect(Pieces(pad + JoinItems(items)), acc) == Fold(items, acc)
    decreases |items|
  {
    hide Collect, Pieces, Trim, Take, Fold, JoinItems, Tight;
    JoinCons(items);
    FoldCons(items, acc);
    var first := pad + items[0];
    assert first + "" == first && Tight(items[0]) && ',' !in first;
    TrimPadded(pad, items[0], "");
    if |items| == 1 {
      CollectCut(first, "", acc);
    } else {
      var rest := " " + JoinItems(items[1..]);
      assert pad + (items[0] + ("," + rest)) == first + ("," + rest);
      CollectCut(first, rest, acc);
      if |acc.names| < MAX_ENTRIES {
        JoinCollected(" ", items[1..], Take(acc, items[0]));
      }
    }
  }

  /** The entries that name something. */
  function Named(items: seq<string>): seq<string> {
    if items == [] then []
    else (if items[0] == "" || items[0] == "*" then [] else [items[0]]) + Named(items[1..])
  }

  /** A star with fewer than `room` names before it. */
  ghost predicate StarWithin(items: seq<string>, room: nat) {
    exists i :: 0 <= i < |items| && items[i] == "*" && |Named(items[..i])| < room
  }

  lemma StarCons(items: seq<string>, room: nat)
    requires items != [] && room > 0
    ensures StarWithin(items, room)
            <==> (items[0] == "*"
                  || StarWithin(items[1..], if items[0] == "" || items[0] == "*" then room else room - 1))
  {
    var rest := items[1..];
    forall i | 0 <= i < |rest|
      ensures rest[i] == items[i + 1]
      ensures Named(items[..i + 1]) == (if items[0] == "" || items[0] == "*" then [] else [items[0]]) + Named(rest[..i])
    {
      assert items[..i + 1][1..] == rest[..i];
    }
    if items[0] == "*" {
      assert items[..0] == [] && |Named(items[..0])| < room;
    } else if StarWithin(items, room) {
      var i :| 0 <= i < |items| && items[i] == "*" && |Named(items[..i])| < room;
      assert rest[i - 1] == "*" && Named(items[..(i - 1) + 1]) == Named(items[..i]);
    }
  }

  lemma CutFirst(before: seq<string>, names: seq<string>, room: nat)
    requires names != [] && room > 0
    ensures before + [Cut(names[0], NAME_MAX)] + CutAll(First(names[1..], room - 1))
            == before + CutAll(First(names, room))
  {
    assert First(names, room)[1..] == First(names[1..], room - 1);
  }

  lemma {:induction false} FoldIs(items: seq<string>, acc: Perms)
    requires |acc.names| <= MAX_ENTRIES
    ensures var room := MAX_ENTRIES - |acc.names|;
            Fold(items, acc) == Perms(acc.names + CutAll(First(Named(items), room)),
                                      acc.wildcard || StarWithin(items, room))
    decreases |items|
  {
    var room := MAX_ENTRIES - |acc.names|;
    if items == [] || room == 0 {
      assert acc.names + CutAll(First(Named(items), room)) == acc.names;
    } else {
      var item, rest := items[0], items[1..];
      NamedCons(items);
      hide CutAll, First, Cut, StarWithin, Named;
      FoldIs(rest, Take(acc, item));
      StarCons(items, room);
      if item != "" && item != "*" {
        CutFirst(acc.names, Named(items), room);
      }
    }
  }

  lemma NamedCons(items: seq<string>)
    requires items != []
    ensures var named := Named(items);
            if items[0] == "" || items[0] == "*" then named == Named(items[1..])
            else named != [] && named[0] == items[0] && named[1..] == Named(items[1..])
  {
  }

  /**
    Reading a list of any entries: its first 20 names, each cut to 63 characters, and the wildcard exactly
    when a star stands before the table is full.
   */
  lemma ListRead(items: seq<string>)
    requires Separable(items)
    ensures ParseList(JoinItems(items))
            == Perms(CutAll(First(Named(items), MAX_ENTRIES)), StarWithin(items, MAX_ENTRIES))
  {
    hide Collect, Pieces, Fold, CutAll, First, Named, StarWithin, JoinItems;
    if items == [] {
      EmptyList();
    } else {
      assert "" + JoinItems(items) == JoinItems(items);
      JoinCollected("", items, NO_PERMS);
    }
    FoldIs(items, NO_PERMS);
    var kept := CutAll(First(Named(items), MAX_ENTRIES));
    assert [] + kept == kept;
  }

  lemma EmptyList()
    ensures JoinItems([]) == "" && Collect(Pieces(""), NO_PERMS) == NO_PERMS == Fold([], NO_PERMS)
  {
  }

  lemma {:induction false} NamedAll(names: seq<string>)
    requires forall i :: 0 <= i < |names| ==> names[i] != "" && names[i] != "*"
    ensures Named(names) == names
  {
    if names != [] {
      NamedAll(names[1..]);
    }
  }

  lemma ItemsRead(p: Perms)
    requires GoodPerms(p)
    ensures Named(Items(p)) == p.names && (StarWithin(Items(p), MAX_ENTRIES) <==> p.wildcard)
  {
    hide Tight;
    var items := Items(p);
    NamedAll(p.names);
    if p.wildcard {
      assert items[0] == "*" && items[1..] == p.names && items[..0] == [];
      assert |Named(items[..0])| < MAX_ENTRIES;
    } else {
      assert items == p.names;
    }
  }

  /** Parsing a printed list gives the first 20 names back; the wildcard comes before them. */
  lemma ListParsed(p: Perms)
    requires GoodPerms(p)
    ensures ParseList(JoinItems(Items(p))) == KeptPerms(p)
    ensures Tight(JoinItems(Items(p)))
  {
    var items := Items(p);
    assert Listable(items) && Separable(items);
    hide ParseList, JoinItems, Tight, Listable, Separable, Items, StarWithin, Named, CutAll, First;
    JoinTight(items);
    ListRead(items);
    ItemsRead(p);
  }

  // ---- Roles, mappings, the whole file ----------------------------------------------------

  lemma KeyParsed(p: Parser, key: string, perms: Perms)
    requires key in ["SUBSCRIBE", "UNSUBSCRIBE", "PUBLISH", "SET"] && GoodPerms(perms)
    requires !p.inMap && p.inRole && p.config.roles != []
    ensures var last := |p.config.roles| - 1;
            ParseLine(p, PairLine(key, JoinItems(Items(perms))) + "\n")
            == p.(config := p.config.(roles := p.config.roles[last := SetList(p.config.roles[last], key,
                                                                              KeptPerms(perms))]))
  {
    hide ParseLine, ParseList, JoinItems, Items, GoodPerms, Tight, PairLine, KeptPerms;
    ListParsed(perms);
    assert key != "" && Tight(key) && key[0] != '[' && key[0] != ';' && '=' !in key by { KeyName(key); }
    PairParsed(p, key, JoinItems(Items(perms)));
  }

  lemma KeyName(key: string)
    requires key in ["SUBSCRIBE", "UNSUBSCRIBE", "PUBLISH", "SET"]
    ensures key != "" && Tight(key) && key[0] != '[' && key[0] != ';' && '=' !in key
  {
  }

  /** A role that has only its name. */
  function Bare(name: string): Role {
    Role(name, NO_PERMS, NO_PERMS, NO_PERMS, NO_PERMS)
  }

  /** A parser inside the role section with these roles. */
  function InRole(p: Parser, rs: seq<Role>): Parser {
    Parser(p.config.(roles := rs), false, true)
  }

  /** The table after one more printed role: a new entry, or new lists for the last one when it is full. */
  function AddRole(rs: seq<Role>, r: Role): seq<Role>
    requires |rs| <= MAX_ROLES
  {
    if |rs| < MAX_ROLES then rs + [KeptRole(r)]
    else rs[MAX_ROLES - 1 := KeptRole(r).(name := rs[MAX_ROLES - 1].name)]
  }

  /** The four printed lists of `r` replace those of the last role. */
  lemma {:induction false} ListsParsed(p: Parser, r: Role, rs: seq<Role>)
    requires GoodRole(r) && rs != []
    ensures ParseLines(InRole(p, rs), RoleLines(r)[1..])
            == InRole(p, rs[|rs| - 1 := KeptRole(r).(name := rs[|rs| - 1].name)])
  {
    hide ParseLine, GoodPerms, JoinItems, Items, PairLine, KeptPerms;
    var last := |rs| - 1;
    var r0 := rs[last];
    var r1 := r0.(subscribe := KeptPerms(r.subscribe));
    var r2 := r1.(unsubscribe := KeptPerms(r.unsubscribe));
    var r3 := r2.(publish := KeptPerms(r.publish));
    var r4 := r3.(setKeys := KeptPerms(r.setKeys));
    assert r4 == KeptRole(r).(name := r0.name);
    KeyParsed(InRole(p, rs), "SUBSCRIBE", r.subscribe);
    KeyParsed(InRole(p, rs[last := r1]), "UNSUBSCRIBE", r.unsubscribe);
    assert rs[last := r1][last := r2] == rs[last := r2];
    KeyParsed(InRole(p, rs[last := r2]), "PUBLISH", r.publish);
    assert rs[last := r2][last := r3] == rs[last := r3];
    KeyParsed(InRole(p, rs[last := r3]), "SET", r.setKeys);
    assert rs[last := r3][last := r4] == rs[last := r4];
    ParseFour(InRole(p, rs), RoleLines(r)[1..], InRole(p, rs[last := r1]), InRole(p, rs[last := r2]),
              InRole(p, rs[last := r3]), InRole(p, rs[last := r4]));
  }

  lemma {:induction false} RoleParsed(p: Parser, r: Role)
    requires GoodRole(r) && |p.config.roles| <= MAX_ROLES && (p.inRole || p.config.roles == [])
    ensures ParseLines(p, RoleLines(r)) == InRole(p, AddRole(p.config.roles, r))
  {
    hide ParseLine, GoodPerms, KeptPerms, PairLine, JoinItems, Items;
    var rs, name := p.config.roles, Cut(r.name, NAME_MAX);
    HeaderParsed(p, r.name);
    if |rs| < MAX_ROLES {
      ListsParsed(p, r, rs + [Bare(name)]);
      assert (rs + [Bare(name)])[|rs| := KeptRole(r)] == rs + [KeptRole(r)];
    } else {
      ListsParsed(p, r, rs);
    }
  }

  lemma ParseFour(p: Parser, lines: seq<string>, p1: Parser, p2: Parser, p3: Parser, p4: Parser)
    requires |lines| == 4 && ParseLine(p, lines[0] + "\n") == p1 && ParseLine(p1, lines[1] + "\n") == p2
    requires ParseLine(p2, lines[2] + "\n") == p3 && ParseLine(p3, lines[3] + "\n") == p4
    ensures ParseLines(p, lines) == p4
  {
    hide ParseLine;
    var l1 := lines[1..];
    var l2 := l1[1..];
    var l3 := l2[1..];
    assert ParseLines(p3, l3) == ParseLines(p4, l3[1..]) == p4;
    assert ParseLines(p2, l2) == ParseLines(p3, l3);
    assert ParseLines(p1, l1) == ParseLines(p2, l2);
  }

  function AddRoles(rs: seq<Role>, more: seq<Role>): (r: seq<Role>)
    requires |rs| <= MAX_ROLES
    ensures |r| <= MAX_ROLES
    decreases |more|
  {
    if more == [] then rs else AddRoles(AddRole(rs, more[0]), more[1..])
  }

  lemma {:induction false} AddRolesIs(rs: seq<Role>, more: seq<Role>)
    requires |rs| <= MAX_ROLES
    ensures AddRoles(rs, more) == Squeezed(rs + KeptEach(more))
    decreases |more|
  {
    if more == [] {
      assert rs + KeptEach(more) == rs;
    } else {
      var r, rest := KeptRole(more[0]), KeptEach(more[1..]);
      assert rs + KeptEach(more) == rs + [r] + rest;
      AddRoleFits(rs, more[0]);
      hide KeptRole, KeptEach, Squeezed;
      AddRolesIs(AddRole(rs, more[0]), more[1..]);
      if |rs| == MAX_ROLES {
        SqueezedFull(rs, r, rest);
      }
    }
  }

  lemma SqueezedFull(rs: seq<Role>, r: Role, rest: seq<Role>)
    requires |rs| == MAX_ROLES
    ensures Squeezed(rs[MAX_ROLES - 1 := r.(name := rs[MAX_ROLES - 1].name)] + rest) == Squeezed(rs + [r] + rest)
  {
    var n := MAX_ROLES - 1;
    var a, b := rs[n := r.(name := rs[n].name)] + rest, rs + [r] + rest;
    assert a[..n] == b[..n] && a[n].name == b[n].name;
    if rest == [] {
      assert a == a[..n] + [a[n]];
    }
  }

  lemma {:induction false} RolesParsed(p: Parser, more: seq<Role>)
    requires forall i :: 0 <= i < |more| ==> GoodRole(more[i])
    requires |p.config.roles| <= MAX_ROLES && (p.inRole || p.config.roles == [])
    ensures ParseLines(p, RolesLines(more))
            == if more == [] then p else InRole(p, AddRoles(p.config.roles, more))
    decreases |more|
  {
    if more != [] {
      hide RoleLines, GoodRole, ParseLines, AddRole;
      ParseLinesAppend(p, RoleLines(more[0]), RolesLines(more[1..]));
      RoleParsed(p, more[0]);
      assert |AddRole(p.config.roles, more[0])| <= MAX_ROLES by { AddRoleFits(p.config.roles, more[0]); }
      RolesParsed(InRole(p, AddRole(p.config.roles, more[0])), more[1..]);
    }
  }

  lemma AddRoleFits(rs: seq<Role>, r: Role)
    requires |rs| <= MAX_ROLES
    ensures |AddRole(rs, r)| <= MAX_ROLES
  {
  }

  lemma MappingParsed(p: Parser, m: Mapping)
    requires p.inMap && !p.inRole && GoodMapping(m)
    ensures ParseLine(p, PairLine(m.pattern, m.role) + "\n")
            == if |p.config.mappings| >= MAX_MAPPINGS then p
               else p.(config := p.config.(mappings := p.config.mappings + [KeptMapping(m)]))
  {
    hide ParseLine, PairLine;
    PairParsed(p, m.pattern, m.role);
  }

  lemma {:induction false} MappingsParsed(p: Parser, ms: seq<Mapping>)
    requires p.inMap && !p.inRole && |p.config.mappings| <= MAX_MAPPINGS
    requires forall i :: 0 <= i < |ms| ==> GoodMapping(ms[i])
    ensures var room := MAX_MAPPINGS - |p.config.mappings|;
            ParseLines(p, MappingLines(ms))
            == p.(config := p.config.(mappings := p.config.mappings + KeptMappings(First(ms, room))))
    decreases |ms|
  {
    hide ParseLine, PairLine, GoodMapping, KeptMapping, KeptMappings, First;
    var before := p.config.mappings;
    var room := MAX_MAPPINGS - |before|;
    KeptFirst(before, ms, room);
    if ms != [] {
      MappingParsed(p, ms[0]);
      ParseCons(p, PairLine(ms[0].pattern, ms[0].role), MappingLines(ms[1..]));
      hide ParseLines;
      if room == 0 {
        MappingsParsed(p, ms[1..]);
        KeptFirst(before, ms[1..], room);
      } else {
        MappingsParsed(p.(config := p.config.(mappings := before + [KeptMapping(ms[0])])), ms[1..]);
      }
    }
  }

  lemma KeptFirst(before: seq<Mapping>, ms: seq<Mapping>, room: nat)
    ensures ms == [] || room == 0 ==> before + KeptMappings(First(ms, room)) == before
    ensures ms != [] && room > 0 ==>
              before + KeptMappings(First(ms, room))
              == before + [KeptMapping(ms[0])] + KeptMappings(First(ms[1..], room - 1))
  {
    if ms != [] && room > 0 {
      assert First(ms, room)[1..] == First(ms[1..], room - 1);
    }
  }

  lemma MapHeaderTrimmed()
    ensures Trim("[map]" + "\n") == "[map]"
  {
    hide Trim;
    assert "[map]" + "\n" == "" + "[map]" + "\n";
    TrimPadded("", "[map]", "\n");
  }

  lemma MapHeaderParsed(p: Parser)
    ensures ParseLine(p, "[map]" + "\n") == p.(inMap := true, inRole := false)
  {
    hide Trim, ParsePair, Index;
    assert Trim("[map]" + "\n") == "[map]" by { MapHeaderTrimmed(); }
    assert "[map]"[1] == 'm';
  }

  predicate OneLine(lines: seq<string>) {
    forall l :: l in lines ==> '\n' !in l
  }

  lemma {:induction false} JoinOneLine(items: seq<string>)
    requires OneLine(items)
    ensures '\n' !in JoinItems(items)
  {
    if |items| > 1 {
      JoinOneLine(items[1..]);
    }
  }

  lemma ListOneLine(key: string, p: Perms)
    requires GoodPerms(p) && '\n' !in key
    ensures '\n' !in PairLine(key, JoinItems(Items(p)))
  {
    JoinOneLine(Items(p));
  }

  lemma RoleOneLine(r: Role)
    requires GoodRole(r)
    ensures OneLine(RoleLines(r))
  {
    hide PairLine, JoinItems, Items, GoodPerms;
    ListOneLine("SUBSCRIBE", r.subscribe);
    ListOneLine("UNSUBSCRIBE", r.unsubscribe);
    ListOneLine("PUBLISH", r.publish);
    ListOneLine("SET", r.setKeys);
  }

  lemma {:induction false} RolesOneLine(rs: seq<Role>)
    requires forall i :: 0 <= i < |rs| ==> GoodRole(rs[i])
    ensures OneLine(RolesLines(rs))
    decreases |rs|
  {
    hide RoleLines, GoodRole;
    if rs != [] {
      RoleOneLine(rs[0]);
      RolesOneLine(rs[1..]);
    }
  }

  lemma {:induction false} MappingsOneLine(ms: seq<Mapping>)
    requires forall i :: 0 <= i < |ms| ==> GoodMapping(ms[i])
    ensures OneLine(MappingLines(ms))
    decreases |ms|
  {
    if ms != [] {
      assert '\n' !in PairLine(ms[0].pattern, ms[0].role);
      MappingsOneLine(ms[1..]);
    }
  }

  lemma ConfigPrinted(c: Config)
    requires GoodConfig(c)
    ensures forall i :: 0 <= i < |ConfigLines(c)| ==> Printed(ConfigLines(c)[i])
  {
    hide RolesLines, MappingLines, GoodRole, GoodMapping;
    var lines := ConfigLines(c);
    RolesOneLine(c.roles);
    MappingsOneLine(c.mappings);
    assert forall i :: 0 <= i < |lines| ==> lines[i] in lines;
  }

  lemma {:induction false} ConfigLinesParsed(c: Config)
    requires GoodConfig(c)
    ensures ParseLines(INITIAL, ConfigLines(c)).config == Kept(c)
  {
    hide ParseLine, RolesLines, MappingLines, GoodRole, GoodMapping, KeptEach, KeptMappings, Squeezed, AddRoles;
    var roles, maps := RolesLines(c.roles), MappingLines(c.mappings);
    assert ConfigLines(c) == roles + (["[map]"] + maps);
    ParseLinesAppend(INITIAL, roles, ["[map]"] + maps);
    RolesParsed(INITIAL, c.roles);
    AddRolesIs([], c.roles);
    assert [] + KeptEach(c.roles) == KeptEach(c.roles);
    assert c.roles == [] ==> AddRoles([], c.roles) == [] by { AddNoRoles(); }
    var p := ParseLines(INITIAL, roles);
    MapHeaderParsed(p);
    ParseCons(p, "[map]", maps);
    MappingsParsed(p.(inMap := true, inRole := false), c.mappings);
    var kept := KeptMappings(First(c.mappings, MAX_MAPPINGS));
    assert [] + kept == kept;
  }

  lemma AddNoRoles()
    ensures AddRoles([], []) == []
  {
  }

  /**
    Parsing the printed text of any configuration gives what the fixed tables keep of it, so it gives the
    same roles and mappings back exactly when they fit the tables.
   */
  lemma ParseUndoesPrint(c: Config)
    requires GoodConfig(c)
    ensures Parse(Print(c)) == Kept(c)
    ensures Parse(Print(c)) == c <==> Small(c)
  {
    hide ParseLines, ConfigLines, Kept, Small, ParseText, Text;
    ConfigPrinted(c);
    TextIsLines(INITIAL, ConfigLines(c));
    ConfigLinesParsed(c);
    SmallKept(c);
  }

  predicate Short(lines: seq<string>) {
    forall i :: 0 <= i < |lines| ==> |lines[i]| <= LINE_SIZE - 2
  }

  lemma {:induction false} RolesShort(rs: seq<Role>)
    requires forall i :: 0 <= i < |rs| ==> Short(RoleLines(rs[i]))
    ensures Short(RolesLines(rs))
    decreases |rs|
  {
    hide RoleLines;
    if rs != [] {
      RolesShort(rs[1..]);
    }
  }

  lemma BareShort(name: string)
    requires |name| <= NAME_MAX
    ensures Short(RoleLines(Bare(name)))
  {
  }

  /** Any number of roles without lists print as good lines. */
  lemma BareRolesGood(rs: seq<Role>)
    requires forall i :: 0 <= i < |rs| ==> rs[i] == Bare(rs[i].name) && |rs[i].name| <= NAME_MAX
    requires forall i :: 0 <= i < |rs| ==> ']' !in rs[i].name && '\n' !in rs[i].name && NUL !in rs[i].name
    ensures GoodConfig(Config(rs, []))
  {
    hide RoleLines, RolesLines;
    forall i | 0 <= i < |rs|
      ensures Short(RoleLines(rs[i]))
    {
      BareShort(rs[i].name);
    }
    RolesShort(rs);
    assert MappingLines([]) == [];
  }

  /** More than 20 roles do not come back: the twentieth has the lists of the last one. */
  lemma TooManyRoles(c: Config)
    requires GoodConfig(c) && |c.roles| > MAX_ROLES
    ensures var roles, each := Parse(Print(c)).roles, KeptEach(c.roles);
            && |roles| == MAX_ROLES && roles[..MAX_ROLES - 1] == each[..MAX_ROLES - 1]
            && roles[MAX_ROLES - 1] == each[|each| - 1].(name := each[MAX_ROLES - 1].name)
  {
    hide GoodConfig, Parse, Print, KeptEach, KeptRole, KeptMappings, Small;
    ParseUndoesPrint(c);
  }

  // ---- Lines that say nothing -------------------------------------------------------------

  /** A comment, after any white space. */
  ghost predicate Comment(line: string) {
    exists k: nat :: k < |line| && Blank(line[..k]) && line[k] == ';'
  }

  /** A line, and not a section header, that sets nothing. */
  predicate Pairless(line: string) {
    line != "" && !IsSpace(line[0]) && line[0] != '[' && '=' !in line
  }

  /** A line in brackets that is neither a role nor the map. */
  predicate OtherSection(line: string) {
    Tight(line) && line != "" && line[0] == '[' && !("[role:" <= line) && line != "[map]"
  }

  ghost predicate Silent(line: string) {
    Blank(line) || Comment(line) || Pairless(line) || OtherSection(line)
  }

  lemma TrimKeepsStart(a: string, c: char, rest: string)
    requires Blank(a) && !IsSpace(c)
    ensures var t := Trim(a + [c] + rest); t != "" && t[0] == c && t <= [c] + rest
  {
    assert a + [c] + rest == a + ([c] + rest);
    TrimLeftBlank(a, [c] + rest);
    TrimRightStarts([c] + rest);
  }

  lemma {:induction false} TrimRightStarts(s: string)
    requires s != "" && !IsSpace(s[0])
    ensures TrimRight(s) != "" && TrimRight(s)[0] == s[0]
    decreases |s|
  {
    if IsSpace(s[|s| - 1]) {
      TrimRightStarts(s[..|s| - 1]);
    }
  }

  lemma SilentLine(p: Parser, line: string)
    requires Silent(line)
    ensures ParseLine(p, line + "\n") == p
  {
    hide Trim, ParsePair, Index;
    if Blank(line) {
      assert line + "\n" == line + "" + "\n";
      TrimPadded(line, "", "\n");
    } else if Comment(line) {
      var k: nat :| k < |line| && Blank(line[..k]) && line[k] == ';';
      assert line + "\n" == line[..k] + [';'] + (line[k + 1..] + "\n");
      TrimKeepsStart(line[..k], ';', line[k + 1..] + "\n");
    } else if Pairless(line) {
      assert line + "\n" == "" + [line[0]] + (line[1..] + "\n");
      TrimKeepsStart("", line[0], line[1..] + "\n");
      var t := Trim(line + "\n");
      assert t <= line + "\n" && '=' !in t;
      IndexUnique(t, '=', |t|);
    } else {
      assert line + "\n" == "" + line + "\n";
      TrimPadded("", line, "\n");
    }
  }

  /** The lines that say something. */
  ghost function Spoken(lines: seq<string>): seq<string> {
    if lines == [] then [] else (if Silent(lines[0]) then [] else [lines[0]]) + Spoken(lines[1..])
  }

  lemma {:induction false} SilenceSkipped(p: Parser, lines: seq<string>)
    ensures ParseLines(p, lines) == ParseLines(p, Spoken(lines))
    decreases |lines|
  {
    hide ParseLine, Silent;
    if lines != [] {
      var next := ParseLine(p, lines[0] + "\n");
      SilenceSkipped(next, lines[1..]);
      if Silent(lines[0]) {
        SilentLine(p, lines[0]);
        assert Spoken(lines) == Spoken(lines[1..]);
      } else {
        ParseCons(p, lines[0], Spoken(lines[1..]));
      }
    }
  }

  /** Files whose lines say the same give the same configuration. */
  lemma SameWords(lines: seq<string>, lines': seq<string>)
    requires forall i :: 0 <= i < |lines| ==> Printed(lines[i])
    requires forall i :: 0 <= i < |lines'| ==> Printed(lines'[i])
    requires Spoken(lines) == Spoken(lines')
    ensures Parse(Text(lines)) == Parse(Text(lines'))
  {
    hide ParseLines, Spoken, ParseText, Text;
    TextIsLines(INITIAL, lines);
    TextIsLines(INITIAL, lines');
    SilenceSkipped(INITIAL, lines);
    SilenceSkipped(INITIAL, lines');
  }

  lemma {:induction false} SpokenAppend(a: seq<string>, b: seq<string>)
    ensures Spoken(a + b) == Spoken(a) + Spoken(b)
    decreases |a|
  {
    hide Silent;
    if a == [] {
      assert a + b == b;
    } else {
      assert (a + b)[1..] == a[1..] + b;
      SpokenAppend(a[1..], b);
    }
  }

  /** A blank line, a comment, a line that sets nothing or an unknown section may stand anywhere. */
  lemma SilenceChangesNothing(a: seq<string>, line: string, b: seq<string>)
    requires forall i :: 0 <= i < |a + [line] + b| ==> Printed((a + [line] + b)[i])
    requires Silent(line)
    ensures Parse(Text(a + [line] + b)) == Parse(Text(a + b))
  {
    hide Silent, Parse, Printed;
    var with := a + [line] + b;
    assert forall i :: 0 <= i < |a + b| ==> (a + b)[i] == with[if i < |a| then i else i + 1];
    SpokenAppend(a + [line], b);
    SpokenAppend(a, [line]);
    SpokenAppend(a, b);
    assert [line][1..] == [] && Spoken([line]) == [];
    hide Spoken;
    assert Spoken(a) + [] + Spoken(b) == Spoken(a) + Spoken(b);
    SameWords(with, a + b);
  }

  /** Silent lines put among the printed ones change nothing. */
  lemma SilenceAmongPrinted(c: Config, lines: seq<string>)
    requires GoodConfig(c) && Spoken(lines) == ConfigLines(c)
    requires forall i :: 0 <= i < |lines| ==> Printed(lines[i])
    ensures Parse(Text(lines)) == Parse(Print(c)) == Kept(c)
  {
    hide ParseLines, ConfigLines, Spoken, Kept, Small, ParseText, Text;
    TextIsLines(INITIAL, lines);
    SilenceSkipped(INITIAL, lines);
    ConfigLinesParsed(c);
    ParseUndoesPrint(c);
  }

  // ---- Decisions --------------------------------------------------------------------------

  /** What match_pattern means: equality, or a prefix before a final star; the empty pattern matches nothing. */
  predicate Matches(pattern: string, host: string) {
    pattern != "" && (pattern == host || (pattern[|pattern| - 1] == '*' && pattern[..|pattern| - 1] <= host))
  }

  /** strncmp(a, b, n) == 0 on NUL-terminated strings. */
  predicate SamePrefix(a: string, b: string, n: nat) {
    if n == 0 then true
    else if a == "" || b == "" then a == "" && b == ""
    else a[0] == b[0] && SamePrefix(a[1..], b[1..], n - 1)
  }

  lemma {:induction false} SamePrefixIs(a: string, b: string, n: nat)
    requires n <= |a|
    ensures SamePrefix(a, b, n) <==> a[..n] <= b
  {
    if n > 0 && b != "" {
      SamePrefixIs(a[1..], b[1..], n - 1);
      PrefixStep(a[..n], b);
      assert a[..n][1..] == a[1..][..n - 1];
    }
  }

  lemma PrefixStep(s: string, b: string)
    requires s != "" && b != ""
    ensures s <= b <==> s[0] == b[0] && s[1..] <= b[1..]
  {
    if s[0] == b[0] && s[1..] <= b[1..] {
      assert forall i :: 1 <= i < |s| ==> s[i] == s[1..][i - 1] == b[1..][i - 1] == b[i];
    }
    if s <= b {
      assert forall i :: 0 <= i < |s| - 1 ==> s[1..][i] == s[i + 1] == b[i + 1] == b[1..][i];
    }
  }

  /** match_pattern, branch by branch. */
  function MatchPattern(pattern: string, str: string): (r: bool)
    ensures r <==> Matches(pattern, str)
  {
    var len := |pattern|;
    if len == 0 then false
    else if pattern == "*" then true
    else if pattern[len - 1] == '*' then
      SamePrefixIs(pattern, str, len - 1);
      SamePrefix(pattern, str, len - 1)
    else pattern == str
  }

  /** `i` is the earliest mapping that matches. */
  predicate FirstMatch(c: Config, host: string, i: nat) {
    && i < |c.mappings| && Matches(c.mappings[i].pattern, host)
    && forall k :: 0 <= k < i ==> !Matches(c.mappings[k].pattern, host)
  }

  /** The role a host is given by name: that of the earliest matching mapping, or DEFAULT. */
  ghost predicate Assigned(c: Config, host: string, name: string) {
    || (exists i: nat :: FirstMatch(c, host, i) && name == c.mappings[i].role)
    || (name == "DEFAULT" && forall k :: 0 <= k < |c.mappings| ==> !Matches(c.mappings[k].pattern, host))
  }

  /** `r` is the first role that bears the assigned name. */
  ghost predicate Acts(c: Config, host: string, r: nat) {
    && r < |c.roles| && Assigned(c, host, c.roles[r].name)
    && forall k :: 0 <= k < r ==> c.roles[k].name != c.roles[r].name
  }

  predicate Lists(p: Perms, name: string) {
    p.wildcard || name in p.names
  }

  ghost predicate MaySubscribe(c: Config, host: string, topic: string) {
    exists r: nat :: Acts(c, host, r) && Lists(c.roles[r].subscribe, topic)
  }

  ghost predicate MayPublish(c: Config, host: string, topic: string) {
    exists r: nat :: Acts(c, host, r) && Lists(c.roles[r].publish, topic)
  }

  ghost predicate MaySet(c: Config, host: string, key: string) {
    exists r: nat :: Acts(c, host, r) && Lists(c.roles[r].setKeys, key)
  }

  lemma ActsUnique(c: Config, host: string, r: nat, r': nat)
    requires Acts(c, host, r) && Acts(c, host, r')
    ensures r == r'
  {
    assert c.roles[r].name == c.roles[r'].name;
  }

  datatype Found = NoRole | RoleAt(index: nat)

  method GetRole(c: Config, host: string) returns (f: Found)
    ensures f.RoleAt? ==> Acts(c, host, f.index)
    ensures f.NoRole? ==> forall r: nat :: !Acts(c, host, r)
  {
    var target := "DEFAULT";
    var i := 0;
    while i < |c.mappings|
      invariant i <= |c.mappings| && target == "DEFAULT"
      invariant forall k :: 0 <= k < i ==> !Matches(c.mappings[k].pattern, host)
    {
      if MatchPattern(c.mappings[i].pattern, host) {
        target := c.mappings[i].role;
        assert FirstMatch(c, host, i);
        break;
      }
      i := i + 1;
    }
    assert Assigned(c, host, target);
    assert forall name :: Assigned(c, host, name) ==> name == target;
    for j := 0 to |c.roles|
      invariant forall k :: 0 <= k < j ==> c.roles[k].name != target
    {
      if c.roles[j].name == target {
        return RoleAt(j);
      }
    }
    f := NoRole;
  }

  method ListsName(p: Perms, name: string) returns (ok: bool)
    ensures ok <==> Lists(p, name)
  {
    if p.wildcard {
      return true;
    }
    for i := 0 to |p.names|
      invariant name !in p.names[..i]
    {
      if p.names[i] == name {
        return true;
      }
    }
    assert p.names[..|p.names|] == p.names;
    ok := false;
  }

  method CanSubscribe(c: Config, host: string, topic: string) returns (ok: bool)
    ensures ok <==> MaySubscribe(c, host, topic)
  {
    var f := GetRole(c, host);
    if f.NoRole? {
      return false;
    }
    ok := ListsName(c.roles[f.index].subscribe, topic);
    forall r: nat | Acts(c, host, r) ensures r == f.index { ActsUnique(c, host, r, f.index); }
  }

  method CanPublish(c: Config, host: string, topic: string) returns (ok: bool)
    ensures ok <==> MayPublish(c, host, topic)
  {
    var f := GetRole(c, host);
    if f.NoRole? {
      return false;
    }
    ok := ListsName(c.roles[f.index].publish, topic);
    forall r: nat | Acts(c, host, r) ensures r == f.index { ActsUnique(c, host, r, f.index); }
  }

  method CanSet(c: Config, host: string, key: string) returns (ok: bool)
    ensures ok <==> MaySet(c, host, key)
  {
    var f := GetRole(c, host);
    if f.NoRole? {
      return false;
    }
    ok := ListsName(c.roles[f.index].setKeys, key);
    forall r: nat | Acts(c, host, r) ensures r == f.index { ActsUnique(c, host, r, f.index); }
  }

  /** Appending mappings never changes what an already mapped host may do. */
  lemma LaterMappingsIrrelevant(c: Config, more: seq<Mapping>, host: string, i: nat, name: string)
    requires FirstMatch(c, host, i)
    ensures var d := c.(mappings := c.mappings + more);
            && (MaySubscribe(c, host, name) <==> MaySubscribe(d, host, name))
            && (MayPublish(c, host, name) <==> MayPublish(d, host, name))
            && (MaySet(c, host, name) <==> MaySet(d, host, name))
  {
    var d := c.(mappings := c.mappings + more);
    assert FirstMatch(d, host, i);
    assert forall n :: Assigned(c, host, n) <==> n == c.mappings[i].role;
    assert forall n :: Assigned(d, host, n) <==> n == c.mappings[i].role;
    assert forall r: nat :: Acts(c, host, r) <==> Acts(d, host, r);
  }

  // ---- The loader -------------------------------------------------------------------------

  class Store {
    var roles: seq<Role>
    var mappings: seq<Mapping>

    constructor ()
      ensures roles == [] && mappings == []
    {
      roles, mappings := [], [];
    }

    /** rbac_init: reads the file line by line into the tables; a missing file grants nothing. */
    method Init(file: Option<string>)
      modifies this
      ensures Config(roles, mappings) ==
              if file.None? then old(Config(roles, mappings))
              else ParseText(Parser(old(Config(roles, mappings)), false, false), file.value).config
    {
      if file.None? {
        return;
      }
      var text := file.value;
      var inMap, inRole := false, false;
      while text != ""
        invariant ParseText(Parser(Config(roles, mappings), inMap, inRole), text)
                  == ParseText(Parser(old(Config(roles, mappings)), false, false), file.value)
        decreases |text|
      {
        var n := LineLength(text);
        var line := text[..n];
        ghost var p := Parser(Config(roles, mappings), inMap, inRole);
        var t := Trim(line);
        if t != "" && t[0] == '[' {
          inMap, inRole := ReadHeader(t, inMap, inRole);
        } else if t != "" && t[0] != ';' {
          var eq := Index(t, '=');
          if eq < |t| {
            ReadPair(Trim(t[..eq]), Trim(t[eq + 1..]), inMap, inRole);
          }
        }
        assert Parser(Config(roles, mappings), inMap, inRole) == ParseLine(p, line);
        text := text[n..];
      }
    }

    method ReadHeader(t: string, inMap: bool, inRole: bool) returns (inMap': bool, inRole': bool)
      modifies this
      ensures Parser(Config(roles, mappings), inMap', inRole')
              == ParseHeader(Parser(old(Config(roles, mappings)), inMap, inRole), t)
    {
      inMap', inRole' := inMap, inRole;
      if "[role:" <= t {
        inMap' := false;
        var end := Index(t, ']');
        if end < |t| && |roles| < MAX_ROLES {
          assert t[..6] == "[role:";
          assert end >= 6 by { assert forall k :: 0 <= k < 6 ==> t[..6][k] == t[k]; }
          roles := roles + [Role(Cut(t[6..end], NAME_MAX), NO_PERMS, NO_PERMS, NO_PERMS, NO_PERMS)];
          inRole' := true;
        }
      } else if t == "[map]" {
        inMap', inRole' := true, false;
      }
    }

    method ReadPair(key: string, val: string, inMap: bool, inRole: bool)
      modifies this
      ensures Parser(Config(roles, mappings), inMap, inRole)
              == ParsePair(Parser(old(Config(roles, mappings)), inMap, inRole), key, val)
    {
      if inMap && |mappings| < MAX_MAPPINGS {
        mappings := mappings + [Mapping(Cut(key, PATTERN_MAX), Cut(val, NAME_MAX))];
      } else if inRole && roles != [] {
        var last := |roles| - 1;
        var perms := ReadList(val);
        roles := roles[last := SetList(roles[last], key, perms)];
      }
    }

    /** parse_list with its strtok loop. */
    static method ReadList(list: string) returns (perms: Perms)
      ensures perms == ParseList(list)
    {
      var rest := list;
      perms := NO_PERMS;
      while rest != "" && |perms.names| < MAX_ENTRIES
        invariant Collect(Pieces(rest), perms) == ParseList(list)
        decreases |rest|
      {
        var k := Index(rest, ',');
        var token := rest[..k];
        ghost var before, pieces := perms, Pieces(rest);
        rest := if k < |rest| then rest[k + 1..] else "";
        if token != "" {
          var item := Trim(token);
          if item == "*" {
            perms := perms.(wildcard := true);
          } else if item != "" {
            perms := perms.(names := perms.names + [Cut(item, NAME_MAX)]);
          }
          assert pieces == [token] + Pieces(rest) && pieces[1..] == Pieces(rest);
        } else {
          assert pieces == Pieces(rest);
        }
      }
    }
  }
}
