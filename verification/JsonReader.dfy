/**
 A reader of JSON texts after the grammar of RFC 8259, and the proof that both
 layouts are read back.  It reads a subset of the grammar: numbers without
 fraction and exponent that fit 64 bits, and escaped code points below 128.
 */
module JsonReader {
  import opened Json

  datatype Parsed<+T> = Bad | Parsed(value: T, rest: string)

  predicate IsSpace(c: char) { c == ' ' || c == '\t' || c == '\n' || c == '\r' }

  /** Insignificant whitespace, section 2. */
  function Skip(s: string): (r: string)
    ensures |r| <= |s|
  {
    if s != "" && IsSpace(s[0]) then Skip(s[1..]) else s
  }

  function DigitValue(c: char): int {
    if '0' <= c <= '9' then c as int - '0' as int else -1
  }

  function HexValue(c: char): int {
    if '0' <= c <= '9' then c as int - '0' as int
    else if 'a' <= c <= 'f' then c as int - 'a' as int + 10
    else if 'A' <= c <= 'F' then c as int - 'A' as int + 10
    else -1
  }

  /** The longest run of digits at the start of s, continuing the number n read so far. */
  function Digits(s: string, n: nat): (nat, string) {
    if s != "" && DigitValue(s[0]) >= 0 then Digits(s[1..], 10 * n + DigitValue(s[0])) else (n, s)
  }

  /** Section 6; a number goes on with a fraction or an exponent, which are not read. */
  predicate EndsNumber(s: string) {
    s == "" || (DigitValue(s[0]) < 0 && s[0] != '.' && s[0] != 'e' && s[0] != 'E')
  }

  /** The integer part: no leading zeros. */
  function Natural(s: string): (r: Parsed<nat>)
    ensures r.Parsed? ==> |r.rest| < |s|
  {
    if s == "" || DigitValue(s[0]) < 0 then Bad
    else if s[0] == '0' then (if EndsNumber(s[1..]) then Parsed(0, s[1..]) else Bad)
    else
      DigitsShrink(s[1..], DigitValue(s[0]));
      var (n, rest) := Digits(s[1..], DigitValue(s[0]));
      if EndsNumber(rest) then Parsed(n, rest) else Bad
  }

  lemma {:induction false} DigitsShrink(s: string, n: nat)
    ensures |Digits(s, n).1| <= |s|
  {
    if s != "" && DigitValue(s[0]) >= 0 {
      DigitsShrink(s[1..], 10 * n + DigitValue(s[0]));
    }
  }

  function Negate(n: int): int { -n }

  /** Numbers that fit the signed kind get it; larger ones get the unsigned kind. */
  function ReadNumber(s: string): (r: Parsed<Value>)
    ensures r.Parsed? ==> |r.rest| < |s|
  {
    if s != "" && s[0] == '-' then
      match Natural(s[1..])
      case Bad => Bad
      case Parsed(n, rest) => if n <= 0x8000_0000_0000_0000 then Parsed(Int(Negate(n)), rest) else Bad
    else
      match Natural(s)
      case Bad => Bad
      case Parsed(n, rest) =>
        if n < 0x8000_0000_0000_0000 then Parsed(Int(n), rest)
        else if n < 0x1_0000_0000_0000_0000 then Parsed(Uint(n), rest)
        else Bad
  }

  /** One code unit of a string after a backslash, section 7. */
  function Unescape(s: string): (r: Parsed<char>)
    ensures r.Parsed? ==> |r.rest| < |s|
  {
    if s == "" then Bad
    else if s[0] == '\"' || s[0] == '\\' || s[0] == '/' then Parsed(s[0], s[1..])
    else if s[0] == 'b' then Parsed(8 as char, s[1..])
    else if s[0] == 'f' then Parsed(12 as char, s[1..])
    else if s[0] == 'n' then Parsed('\n', s[1..])
    else if s[0] == 'r' then Parsed('\r', s[1..])
    else if s[0] == 't' then Parsed('\t', s[1..])
    else if s[0] == 'u' && |s| >= 5 && s[1] == '0' && s[2] == '0' && 0 <= HexValue(s[3]) < 8 && HexValue(s[4]) >= 0 then
      Parsed((16 * HexValue(s[3]) + HexValue(s[4])) as char, s[5..])
    else Bad
  }

  /** The rest of a string, after the opening quotation mark. */
  function ReadString(s: string): (r: Parsed<string>)
    ensures r.Parsed? ==> |r.rest| < |s|
    decreases |s|
  {
    if s == "" || s[0] < ' ' then Bad
    else if s[0] == '\"' then Parsed("", s[1..])
    else if s[0] == '\\' then
      match Unescape(s[1..])
      case Bad => Bad
      case Parsed(c, rest) => Prepend(c, ReadString(rest))
    else Prepend(s[0], ReadString(s[1..]))
  }

  function Prepend(c: char, p: Parsed<string>): (r: Parsed<string>)
    ensures r.Parsed? <==> p.Parsed?
    ensures r.Parsed? ==> r.rest == p.rest
  {
    match p
    case Bad => Bad
    case Parsed(t, rest) => Parsed([c] + t, rest)
  }

  /** A value at the start of s, section 3. */
  function ReadValue(s: string): (r: Parsed<Value>)
    ensures r.Parsed? ==> |r.rest| < |s|
    decreases |s|, 0
  {
    if s == "" then Bad
    else if "null" <= s then Parsed(Null, s[4..])
    else if "true" <= s then Parsed(Bool(true), s[4..])
    else if "false" <= s then Parsed(Bool(false), s[5..])
    else if s[0] == '\"' then
      match ReadString(s[1..])
      case Bad => Bad
      case Parsed(t, rest) => Parsed(Str(t), rest)
    else if s[0] == '[' then
      var t := Skip(s[1..]);
      if t != "" && t[0] == ']' then Parsed(Arr([]), t[1..])
      else
        match ReadItems(t)
        case Bad => Bad
        case Parsed(items, rest) => Parsed(Arr(items), rest)
    else if s[0] == '{' then
      var t := Skip(s[1..]);
      if t != "" && t[0] == '}' then Parsed(Obj([]), t[1..])
      else
        match ReadMembers(t)
        case Bad => Bad
        case Parsed(members, rest) => Parsed(Obj(members), rest)
    else ReadNumber(s)
  }

  /** One or more values up to the closing bracket, section 5. */
  function ReadItems(s: string): (r: Parsed<seq<Value>>)
    ensures r.Parsed? ==> |r.rest| < |s|
    decreases |s|, 1
  {
    match ReadValue(s)
    case Bad => Bad
    case Parsed(v, rest) =>
      var t := Skip(rest);
      if t != "" && t[0] == ']' then Parsed([v], t[1..])
      else if t != "" && t[0] == ',' then
        match ReadItems(Skip(t[1..]))
        case Bad => Bad
        case Parsed(vs, more) => Parsed([v] + vs, more)
      else Bad
  }

  /** A name, a colon and a value, section 4. */
  function ReadMember(s: string): (r: Parsed<Member>)
    ensures r.Parsed? ==> |r.rest| < |s|
    decreases |s|, 1
  {
    if s == "" || s[0] != '\"' then Bad
    else
      match ReadString(s[1..])
      case Bad => Bad
      case Parsed(key, rest) =>
        var t := Skip(rest);
        if t == "" || t[0] != ':' then Bad
        else
          match ReadValue(Skip(t[1..]))
          case Bad => Bad
          case Parsed(v, more) => Parsed(Member(key, v), more)
  }

  /** One or more members up to the closing brace. */
  function ReadMembers(s: string): (r: Parsed<seq<Member>>)
    ensures r.Parsed? ==> |r.rest| < |s|
    decreases |s|, 2
  {
    match ReadMember(s)
    case Bad => Bad
    case Parsed(m, rest) =>
      var t := Skip(rest);
      if t != "" && t[0] == '}' then Parsed([m], t[1..])
      else if t != "" && t[0] == ',' then
        match ReadMembers(Skip(t[1..]))
        case Bad => Bad
        case Parsed(ms, more) => Parsed([m] + ms, more)
      else Bad
  }

  /** A whole text: one value, with whitespace around it. */
  function Read(s: string): Parsed<Value> {
    match ReadValue(Skip(s))
    case Bad => Bad
    case Parsed(v, rest) => if Skip(rest) == "" then Parsed(v, "") else Bad
  }

  // ---- Both layouts are read back --------------------------------------

  /** Reading chooses the signed kind for every number that fits it; nothing else changes. */
  function Canonical(v: Value): Value {
    match v
    case Uint(u) => if u < 0x8000_0000_0000_0000 then Int(u) else v
    case Arr(items) => Arr(CanonicalItems(items))
    case Obj(members) => Obj(CanonicalMembers(members))
    case _ => v
  }

  function CanonicalItems(items: seq<Value>): seq<Value> {
    if items == [] then [] else [Canonical(items[0])] + CanonicalItems(items[1..])
  }

  function CanonicalMembers(members: seq<Member>): seq<Member> {
    if members == [] then []
    else [Member(members[0].key, Canonical(members[0].value))] + CanonicalMembers(members[1..])
  }

  ghost predicate White(w: string) { forall c <- w :: IsSpace(c) }

  lemma {:induction false} SkipWhite(w: string, s: string)
    requires White(w)
    ensures Skip(w + s) == Skip(s)
  {
    if w == "" {
      assert w + s == s;
    } else {
      SkipWhite(w[1..], s);
      assert (w + s)[1..] == w[1..] + s;
    }
  }

  lemma {:induction false} SpacesWhite(n: nat)
    ensures White(Spaces(n))
  {
    if n > 0 {
      SpacesWhite(n - 1);
    }
  }

  lemma LayoutWhite(style: Style, depth: nat)
    ensures White(Margin(style, depth)) && White(NewLine(style)) && White(Gap(style))
  {
    SpacesWhite(4 * depth);
  }

  lemma UnescapeEscape(c: char, s: string)
    requires c < ' ' || c == '\"' || c == '\\'
    ensures Escape(c)[0] == '\\' && Unescape(Escape(c)[1..] + s) == Parsed(c, s)
  {
    var e := Escape(c)[1..] + s;
    if |Escape(c)| == 2 {
      assert e[1..] == s;
    } else {
      assert e[5..] == s;
    }
  }

  /** An escaped code unit is read as that code unit. */
  lemma ReadsEscape(c: char, more: string)
    ensures ReadString(Escape(c) + more) == Prepend(c, ReadString(more))
  {
    var s := Escape(c) + more;
    if c < ' ' || c == '\"' || c == '\\' {
      UnescapeEscape(c, more);
      assert s[0] == '\\' && s[1..] == Escape(c)[1..] + more;
    } else {
      assert s[0] == c && s[1..] == more;
    }
  }

  lemma ReadsQuote(rest: string)
    ensures ReadString("\"" + rest) == Parsed("", rest)
  {
    assert ("\"" + rest)[1..] == rest;
  }

  lemma {:induction false} ReadsString(t: string, rest: string)
    ensures ReadString(EscapeAll(t) + ("\"" + rest)) == Parsed(t, rest)
  {
    hide ReadString, Escape;
    var tail := "\"" + rest;
    if t == "" {
      assert EscapeAll(t) + tail == tail;
      ReadsQuote(rest);
    } else {
      var more := EscapeAll(t[1..]) + tail;
      assert EscapeAll(t) + tail == Escape(t[0]) + more;
      ReadsString(t[1..], rest);
      ReadsEscape(t[0], more);
      assert [t[0]] + t[1..] == t;
    }
  }

  /** The number read after reading the digits of s, having read n before. */
  function Fold(n: nat, s: string): nat
    decreases |s|
  {
    if s == "" || DigitValue(s[0]) < 0 then n else Fold(10 * n + DigitValue(s[0]), s[1..])
  }

  ghost predicate AllDigits(s: string) { forall c <- s :: DigitValue(c) >= 0 }

  lemma {:induction false} FoldAppend(n: nat, s: string, d: nat)
    requires AllDigits(s) && d < 10
    ensures Fold(n, s + [Digit(d)]) == 10 * Fold(n, s) + d
    decreases |s|
  {
    if s == "" {
      assert s + [Digit(d)] == [Digit(d)];
    } else {
      assert s[0] in s;
      FoldAppend(10 * n + DigitValue(s[0]), s[1..], d);
      assert (s + [Digit(d)])[1..] == s[1..] + [Digit(d)];
    }
  }

  lemma {:induction false} DecimalFolds(n: nat)
    ensures AllDigits(Decimal(n)) && Fold(0, Decimal(n)) == n
    ensures n > 0 ==> Decimal(n)[0] != '0'
  {
    if n < 10 {
      assert Decimal(n) == [Digit(n)];
      assert Decimal(n)[1..] == "";
    } else {
      DecimalFolds(n / 10);
      FoldAppend(0, Decimal(n / 10), n % 10);
    }
  }

  lemma {:induction false} DigitsFold(s: string, rest: string, n: nat)
    requires AllDigits(s) && EndsNumber(rest)
    ensures Digits(s + rest, n) == (Fold(n, s), rest)
  {
    if s == "" {
      assert s + rest == rest;
    } else {
      assert s[0] in s;
      DigitsFold(s[1..], rest, 10 * n + DigitValue(s[0]));
      assert (s + rest)[1..] == s[1..] + rest;
    }
  }

  lemma ReadsNatural(n: nat, rest: string)
    requires EndsNumber(rest)
    ensures Natural(Decimal(n) + rest) == Parsed(n, rest)
  {
    var s := Decimal(n);
    DecimalFolds(n);
    assert s[0] in s;
    assert (s + rest)[1..] == s[1..] + rest;
    if n == 0 {
      assert s[1..] + rest == rest;
    } else {
      DigitsFold(s[1..], rest, DigitValue(s[0]));
    }
  }

  lemma ReadsNumber(n: int, rest: string)
    requires -0x8000_0000_0000_0000 <= n < 0x1_0000_0000_0000_0000 && EndsNumber(rest)
    ensures ReadNumber(Number(n) + rest) ==
            Parsed(if n < 0x8000_0000_0000_0000 then Int(n) else Uint(n), rest)
  {
    var m := if n < 0 then -n else n;
    hide Natural, Decimal;
    ReadsNatural(m, rest);
    DecimalFolds(m);
    assert Decimal(m)[0] in Decimal(m);
    if n < 0 {
      assert (Number(n) + rest)[1..] == Decimal(m) + rest;
    }
  }

  /** Every text starts with a character that is neither a space nor a closing bracket. */
  lemma TextStarts(style: Style, v: Value, depth: nat)
    ensures var t := Text(style, v, depth); t != "" && !IsSpace(t[0]) && t[0] != ']' && t[0] != '}'
  {
    match v
    case Int(n) => NumberStarts(n);
    case Uint(u) => NumberStarts(u);
    case _ =>
  }

  lemma NumberStarts(n: int)
    ensures Number(n) != "" && (Number(n)[0] == '-' || DigitValue(Number(n)[0]) >= 0)
  {
    if n >= 0 {
      DecimalFolds(n);
      assert Decimal(n)[0] in Decimal(n);
    }
  }

  lemma SkipNone(s: string)
    requires s != "" && !IsSpace(s[0])
    ensures Skip(s) == s
  {
  }

  // One step of the reader, by the character it sees.

  lemma StepWord(rest: string)
    ensures ReadValue("null" + rest) == Parsed(Null, rest)
    ensures ReadValue("true" + rest) == Parsed(Bool(true), rest)
    ensures ReadValue("false" + rest) == Parsed(Bool(false), rest)
  {
    var s, t, u := "null" + rest, "true" + rest, "false" + rest;
    assert s[..4] == "null" && s[4..] == rest;
    assert t[..4] == "true" && t[0] == 't' && t[4..] == rest;
    assert u[..5] == "false" && u[0] == 'f' && u[5..] == rest;
  }

  lemma StepString(s: string, t: string, rest: string)
    requires ReadString(s) == Parsed(t, rest)
    ensures ReadValue("\"" + s) == Parsed(Str(t), rest)
  {
    assert ("\"" + s)[0] == '\"' && ("\"" + s)[1..] == s;
  }

  lemma StepNumber(s: string)
    requires s != "" && (s[0] == '-' || DigitValue(s[0]) >= 0)
    ensures ReadValue(s) == ReadNumber(s)
  {
  }

  lemma StepArray(s: string, t: string)
    requires Skip(s) == t && t != ""
    ensures t[0] == ']' ==> ReadValue("[" + s) == Parsed(Arr([]), t[1..])
    ensures t[0] != ']' && ReadItems(t).Parsed? ==>
              ReadValue("[" + s) == Parsed(Arr(ReadItems(t).value), ReadItems(t).rest)
  {
    assert ("[" + s)[0] == '[' && ("[" + s)[1..] == s;
  }

  lemma StepObject(s: string, t: string)
    requires Skip(s) == t && t != ""
    ensures t[0] == '}' ==> ReadValue("{" + s) == Parsed(Obj([]), t[1..])
    ensures t[0] != '}' && ReadMembers(t).Parsed? ==>
              ReadValue("{" + s) == Parsed(Obj(ReadMembers(t).value), ReadMembers(t).rest)
  {
    assert ("{" + s)[0] == '{' && ("{" + s)[1..] == s;
  }

  lemma StepItem(s: string, v: Value, rest: string, after: string)
    requires ReadValue(s) == Parsed(v, rest)
    ensures Skip(rest) == "]" + after ==> ReadItems(s) == Parsed([v], after)
    ensures Skip(rest) == "," + after && ReadItems(Skip(after)).Parsed? ==>
              ReadItems(s) == Parsed([v] + ReadItems(Skip(after)).value, ReadItems(Skip(after)).rest)
  {
    hide ReadValue;
    assert ("]" + after)[1..] == after && ("," + after)[1..] == after;
  }

  lemma StepMember(s: string, m: Member, rest: string, after: string)
    requires ReadMember(s) == Parsed(m, rest)
    ensures Skip(rest) == "}" + after ==> ReadMembers(s) == Parsed([m], after)
    ensures Skip(rest) == "," + after && ReadMembers(Skip(after)).Parsed? ==>
              ReadMembers(s) == Parsed([m] + ReadMembers(Skip(after)).value, ReadMembers(Skip(after)).rest)
  {
    hide ReadMember;
    assert ("}" + after)[1..] == after && ("," + after)[1..] == after;
  }

  lemma StepColon(s: string, key: string, rest: string, after: string, v: Value, more: string)
    requires ReadString(s) == Parsed(key, rest) && Skip(rest) == ":" + after
    requires ReadValue(Skip(after)) == Parsed(v, more)
    ensures ReadMember("\"" + s) == Parsed(Member(key, v), more)
  {
    hide ReadValue, ReadString;
    assert ("\"" + s)[1..] == s && (":" + after)[1..] == after;
  }

  /** A text of either layout, followed by anything that cannot continue a number, is read as its value. */
  lemma {:induction false} ReadsValue(style: Style, v: Value, depth: nat, rest: string)
    requires EndsNumber(rest)
    ensures ReadValue(Text(style, v, depth) + rest) == Parsed(Canonical(v), rest)
    decreases v, 0
  {
    hide ReadValue, ReadString, ReadNumber, Number, EscapeAll, ItemsText, MembersText, Margin, NewLine;
    match v
    case Null => StepWord(rest);
    case Bool(b) => StepWord(rest);
    case Int(n) =>
      NumberStarts(n);
      StepNumber(Number(n) + rest);
      ReadsNumber(n, rest);
    case Uint(u) =>
      NumberStarts(u);
      StepNumber(Number(u) + rest);
      ReadsNumber(u, rest);
    case Str(t) =>
      ReadsString(t, rest);
      StepString(EscapeAll(t) + ("\"" + rest), t, rest);
      assert Quote(t) + rest == "\"" + (EscapeAll(t) + ("\"" + rest));
    case Arr(items) => ReadsArray(style, items, depth, rest);
    case Obj(members) => ReadsObject(style, members, depth, rest);
  }

  /** The text of an array reads back. */
  lemma ReadsArray(style: Style, items: seq<Value>, depth: nat, rest: string)
    ensures ReadValue(Text(style, Arr(items), depth) + rest) == Parsed(Arr(CanonicalItems(items)), rest)
    decreases items, 3
  {
    hide ReadValue, ReadItems, Skip, Margin, NewLine, White;
    var nl := NewLine(style);
    var w := nl + Margin(style, depth);
    var end := "]" + rest;
    var body := ItemsText(style, items, depth + 1) + (w + end);
    assert Text(style, Arr(items), depth) + rest == "[" + (nl + body);
    LayoutWhite(style, depth);
    WhiteConcat(nl, Margin(style, depth));
    SkipWhite(nl, body);
    if items == [] {
      assert body == w + end;
      SkipWhite(w, end);
      SkipNone(end);
      assert end[1..] == rest;
      StepArray(nl + body, end);
    } else {
      ReadsItems(style, items, depth + 1, w, rest);
      StepArray(nl + body, Skip(body));
    }
  }

  lemma WhiteConcat(a: string, b: string)
    requires White(a) && White(b)
    ensures White(a + b)
  {
  }

  /** What follows the last item is whitespace and the bracket. */
  lemma {:induction false} ReadsItems(style: Style, items: seq<Value>, depth: nat, w: string, rest: string)
    requires items != [] && White(w)
    ensures var t := Skip(ItemsText(style, items, depth) + (w + ("]" + rest)));
            t != "" && t[0] != ']' && ReadItems(t) == Parsed(CanonicalItems(items), rest)
    decreases items, 2
  {
    hide ReadValue, ReadItems, Skip, Text, Canonical, Margin, NewLine, EndsNumber;
    var end := "]" + rest;
    var nl := NewLine(style);
    var body := Text(style, items[0], depth);
    var more := ItemsText(style, items[1..], depth) + (w + end);
    var after := if |items| == 1 then w + end else "," + (nl + more);
    assert ItemsText(style, items, depth) + (w + end) == Margin(style, depth) + (body + after);
    LayoutWhite(style, depth);
    SkipWhite(Margin(style, depth), body + after);
    TextStarts(style, items[0], depth);
    SkipNone(body + after);
    AfterValue(w, after);
    ReadsValue(style, items[0], depth, after);
    if |items| == 1 {
      SkipWhite(w, end);
      SkipNone(end);
      StepItem(body + after, Canonical(items[0]), after, rest);
      assert CanonicalItems(items) == [Canonical(items[0])];
    } else {
      SkipNone(after);
      SkipWhite(nl, more);
      ReadsItems(style, items[1..], depth, w, rest);
      StepItem(body + after, Canonical(items[0]), after, nl + more);
    }
  }

  lemma AfterValue(w: string, after: string)
    requires White(w) && after != ""
    requires after[0] == ',' || after[0] == ']' || after[0] == '}' || (w != "" && after[0] == w[0])
    ensures EndsNumber(after)
  {
    assert w != "" ==> w[0] in w;
  }

  lemma ReadsMember(style: Style, m: Member, depth: nat, after: string)
    requires EndsNumber(after)
    ensures var t := Skip(MemberText(style, m, depth) + after);
            t != "" && t[0] == '\"' && ReadMember(t) == Parsed(Member(m.key, Canonical(m.value)), after)
    decreases m, 2
  {
    hide ReadValue, ReadString, ReadMember, Skip, Text, Canonical, EscapeAll, Margin, Gap, EndsNumber;
    var gap := Gap(style);
    var body := Text(style, m.value, depth) + after;
    var colon := gap + (":" + (gap + body));
    var key := EscapeAll(m.key) + ("\"" + colon);
    assert MemberText(style, m, depth) + after == Margin(style, depth) + ("\"" + key);
    LayoutWhite(style, depth);
    SkipWhite(Margin(style, depth), "\"" + key);
    SkipNone("\"" + key);
    ReadsString(m.key, colon);
    SkipWhite(gap, ":" + (gap + body));
    SkipNone(":" + (gap + body));
    SkipWhite(gap, body);
    TextStarts(style, m.value, depth);
    SkipNone(body);
    ReadsValue(style, m.value, depth, after);
    StepColon(key, m.key, colon, gap + body, Canonical(m.value), after);
  }

  lemma {:induction false} ReadsMembers(style: Style, members: seq<Member>, depth: nat, w: string, rest: string)
    requires members != [] && White(w)
    ensures var t := Skip(MembersText(style, members, depth) + (w + ("}" + rest)));
            t != "" && t[0] != '}' && ReadMembers(t) == Parsed(CanonicalMembers(members), rest)
    decreases members, 3
  {
    hide ReadMember, ReadMembers, MemberText, Skip, Canonical, NewLine, EndsNumber;
    var end := "}" + rest;
    var nl := NewLine(style);
    var body := MemberText(style, members[0], depth);
    var more := MembersText(style, members[1..], depth) + (w + end);
    var after := if |members| == 1 then w + end else "," + (nl + more);
    assert MembersText(style, members, depth) + (w + end) == body + after;
    LayoutWhite(style, depth);
    AfterValue(w, after);
    ReadsMember(style, members[0], depth, after);
    var m := Member(members[0].key, Canonical(members[0].value));
    if |members| == 1 {
      SkipWhite(w, end);
      SkipNone(end);
      StepMember(Skip(body + after), m, after, rest);
      assert CanonicalMembers(members) == [m];
    } else {
      SkipNone(after);
      SkipWhite(nl, more);
      ReadsMembers(style, members[1..], depth, w, rest);
      StepMember(Skip(body + after), m, after, nl + more);
    }
  }

  lemma ReadsObject(style: Style, members: seq<Member>, depth: nat, rest: string)
    ensures ReadValue(Text(style, Obj(members), depth) + rest) == Parsed(Obj(CanonicalMembers(members)), rest)
    decreases members, 4
  {
    hide ReadValue, ReadMembers, Skip, Margin, NewLine, White;
    var nl := NewLine(style);
    var w := nl + Margin(style, depth);
    var end := "}" + rest;
    var body := MembersText(style, members, depth + 1) + (w + end);
    assert Text(style, Obj(members), depth) + rest == "{" + (nl + body);
    LayoutWhite(style, depth);
    WhiteConcat(nl, Margin(style, depth));
    SkipWhite(nl, body);
    if members == [] {
      assert body == w + end;
      SkipWhite(w, end);
      SkipNone(end);
      assert end[1..] == rest;
      StepObject(nl + body, end);
    } else {
      ReadsMembers(style, members, depth + 1, w, rest);
      StepObject(nl + body, Skip(body));
    }
  }

  /** Both layouts, with whitespace after them, read back to the value. */
  lemma ReadsBack(style: Style, v: Value, w: string)
    requires White(w)
    ensures Read(Text(style, v, 0) + w) == Parsed(Canonical(v), "")
  {
    hide ReadValue, Text, Canonical, Skip, EndsNumber;
    TextStarts(style, v, 0);
    SkipNone(Text(style, v, 0) + w);
    if w != "" {
      AfterValue(w, w);
    } else {
      assert EndsNumber(w) by { EndOfText(); }
    }
    ReadsValue(style, v, 0, w);
    SkipWhite(w, "");
    EndOfText();
    assert w + "" == w;
  }

  lemma EndOfText()
    ensures EndsNumber("") && Skip("") == ""
  {
  }
}
