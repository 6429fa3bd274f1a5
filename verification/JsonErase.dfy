/** Insignificant whitespace: what is left of a JSON text without it. */
module JsonErase {
  import opened Json
  import opened JsonReader
  import opened Printer

  datatype Mode = Outside | Inside | Escaping

  function NextMode(m: Mode, c: char): Mode {
    match m
    case Outside => if c == '\"' then Inside else Outside
    case Inside => if c == '\"' then Outside else if c == '\\' then Escaping else Inside
    case Escaping => Inside
  }

  /** s without the whitespace outside strings, where a string may be open already. */
  function Erase(m: Mode, s: string): string
    decreases |s|
  {
    if s == "" then ""
    else (if m == Outside && IsSpace(s[0]) then "" else [s[0]]) + Erase(NextMode(m, s[0]), s[1..])
  }

  function EndMode(m: Mode, s: string): Mode
    decreases |s|
  {
    if s == "" then m else EndMode(NextMode(m, s[0]), s[1..])
  }

  lemma EraseFirst(m: Mode, c: char, s: string)
    ensures Erase(m, [c] + s) == (if m == Outside && IsSpace(c) then "" else [c]) + Erase(NextMode(m, c), s)
    ensures EndMode(m, [c] + s) == EndMode(NextMode(m, c), s)
  {
    hide NextMode;
    assert ([c] + s)[1..] == s;
  }

  lemma Regroup(a: string, b: string, c: string)
    ensures a + (b + c) == (a + b) + c
  {
  }

  lemma {:induction false} EraseConcat(m: Mode, a: string, b: string)
    ensures Erase(m, a + b) == Erase(m, a) + Erase(EndMode(m, a), b)
    ensures EndMode(m, a + b) == EndMode(EndMode(m, a), b)
    decreases |a|
  {
    if a == "" {
      assert a + b == b;
    } else {
      hide Erase, EndMode, NextMode;
      var c, rest := a[0], a[1..];
      assert a == [c] + rest;
      Regroup([c], rest, b);
      EraseFirst(m, c, rest);
      EraseFirst(m, c, rest + b);
      EraseConcat(NextMode(m, c), rest, b);
      Regroup(if m == Outside && IsSpace(c) then "" else [c], Erase(NextMode(m, c), rest), Erase(EndMode(m, a), b));
    }
  }

  /** Outside strings before and after, erasing s leaves t. */
  ghost predicate Erases(s: string, t: string) {
    Erase(Outside, s) == t && EndMode(Outside, s) == Outside
  }

  lemma ErasesConcat(a: string, b: string, x: string, y: string)
    requires Erases(a, x) && Erases(b, y)
    ensures Erases(a + b, x + y)
  {
    EraseConcat(Outside, a, b);
  }

  lemma {:induction false} ErasesWhite(w: string)
    requires White(w)
    ensures Erases(w, "")
  {
    if w != "" {
      ErasesWhite(w[1..]);
    }
  }

  /** Characters that are neither spaces nor quotation marks stay. */
  lemma {:induction false} ErasesPlain(s: string)
    requires forall c <- s :: !IsSpace(c) && c != '\"'
    ensures Erases(s, s)
  {
    if s != "" {
      ErasesPlain(s[1..]);
      assert [s[0]] + s[1..] == s;
    }
  }

  lemma {:induction false} ErasesNumber(n: int)
    ensures Erases(Number(n), Number(n))
  {
    var m := if n < 0 then -n else n;
    DecimalFolds(m);
    assert forall c <- Number(n) :: c == '-' || DigitValue(c) >= 0;
    ErasesPlain(Number(n));
  }

  lemma EraseEscape(c: char)
    ensures Erase(Inside, Escape(c)) == Escape(c) && EndMode(Inside, Escape(c)) == Inside
  {
    var e := Escape(c);
    if |e| > 1 {
      EraseInside(e[2..]);
      assert e[1..][1..] == e[2..];
      assert e == [e[0]] + ([e[1]] + e[2..]);
    }
  }

  lemma {:induction false} EraseInside(s: string)
    requires forall c <- s :: c != '\"' && c != '\\'
    ensures Erase(Inside, s) == s && EndMode(Inside, s) == Inside
  {
    if s != "" {
      assert forall c <- s[1..] :: c in s;
      assert s[0] in s;
      EraseInside(s[1..]);
      assert [s[0]] + s[1..] == s;
    }
  }

  lemma {:induction false} EraseEscapeAll(t: string)
    ensures Erase(Inside, EscapeAll(t)) == EscapeAll(t) && EndMode(Inside, EscapeAll(t)) == Inside
  {
    hide Escape;
    if t != "" {
      EraseEscape(t[0]);
      EraseEscapeAll(t[1..]);
      EraseConcat(Inside, Escape(t[0]), EscapeAll(t[1..]));
    }
  }

  lemma ErasesQuote(t: string)
    ensures Erases(Quote(t), Quote(t))
  {
    hide EscapeAll;
    EraseEscapeAll(t);
    var e := EscapeAll(t);
    var q := "\"";
    EraseConcat(Inside, e, q);
    EraseConcat(Outside, q, e + q);
    assert q[1..] == "" && Erase(Inside, q) == q && Erase(Outside, q) == q;
    assert Quote(t) == q + (e + q);
  }

  /** Erasing the insignificant whitespace of either layout leaves the compact layout. */
  lemma {:induction false} ErasesText(style: Style, v: Value, depth: nat, d: nat)
    ensures Erases(Text(style, v, depth), Text(Compact, v, d))
    decreases v, 0
  {
    hide Erases, Number, Quote, ItemsText, MembersText, Margin, NewLine;
    match v
    case Null => ErasesPlain("null");
    case Bool(b) => ErasesPlain("true"); ErasesPlain("false");
    case Int(n) => ErasesNumber(n);
    case Uint(u) => ErasesNumber(u);
    case Str(s) => ErasesQuote(s);
    case Arr(items) =>
      ErasesItems(style, items, depth + 1, d + 1);
      ErasesBrackets(style, "[", ItemsText(style, items, depth + 1), "]", ItemsText(Compact, items, d + 1), depth);
      CompactIsPlain(d);
      assert Text(Compact, v, d) == "[" + ItemsText(Compact, items, d + 1) + "]";
    case Obj(members) =>
      ErasesMembers(style, members, depth + 1, d + 1);
      ErasesBrackets(style, "{", MembersText(style, members, depth + 1), "}", MembersText(Compact, members, d + 1),
        depth);
      CompactIsPlain(d);
      assert Text(Compact, v, d) == "{" + MembersText(Compact, members, d + 1) + "}";
  }

  lemma CompactIsPlain(d: nat)
    ensures Margin(Compact, d) == NewLine(Compact) == Gap(Compact) == ""
  {
  }

  lemma ErasesBrackets(style: Style, open: string, body: string, close: string, t: string, depth: nat)
    requires Erases(body, t) && (open == "[" || open == "{") && (close == "]" || close == "}")
    ensures Erases(open + NewLine(style) + body + NewLine(style) + Margin(style, depth) + close, open + t + close)
  {
    hide Erases, NewLine, Margin;
    ErasesPlain(open);
    ErasesPlain(close);
    LayoutWhite(style, depth);
    ErasesWhite(NewLine(style));
    ErasesWhite(Margin(style, depth));
    ErasesConcat(open, NewLine(style), open, "");
    ErasesConcat(open + NewLine(style), body, open + "", t);
    ErasesConcat(open + NewLine(style) + body, NewLine(style), open + "" + t, "");
    ErasesConcat(open + NewLine(style) + body + NewLine(style), Margin(style, depth), open + "" + t + "", "");
    ErasesConcat(open + NewLine(style) + body + NewLine(style) + Margin(style, depth), close,
      open + "" + t + "" + "", close);
    assert open + "" + t + "" + "" + close == open + t + close;
  }

  lemma {:induction false} ErasesItems(style: Style, items: seq<Value>, depth: nat, d: nat)
    ensures Erases(ItemsText(style, items, depth), ItemsText(Compact, items, d))
    decreases items, 1
  {
    hide Erases, Text, Margin, NewLine;
    CompactIsPlain(d);
    if items == [] {
      ErasesPlain("");
    } else {
      LayoutWhite(style, depth);
      ErasesWhite(Margin(style, depth));
      ErasesText(style, items[0], depth, d);
      var x := Text(Compact, items[0], d);
      ErasesConcat(Margin(style, depth), Text(style, items[0], depth), "", x);
      assert "" + x == x;
      if |items| > 1 {
        ErasesItems(style, items[1..], depth, d);
        ErasesTail(style, ItemText(style, items[0], depth), x,
                   ItemsText(style, items[1..], depth), ItemsText(Compact, items[1..], d));
        assert ItemsText(Compact, items, d) == x + ("," + ItemsText(Compact, items[1..], d));
      } else {
        assert ItemsText(style, items, depth) == ItemText(style, items[0], depth);
        assert ItemsText(Compact, items, d) == x;
      }
    }
  }

  /** A separator between two parts. */
  lemma ErasesTail(style: Style, a: string, x: string, b: string, y: string)
    requires Erases(a, x) && Erases(b, y)
    ensures Erases(a + ("," + NewLine(style) + b), x + ("," + y))
  {
    hide Erases, NewLine;
    LayoutWhite(style, 0);
    ErasesPlain(",");
    ErasesWhite(NewLine(style));
    ErasesConcat(",", NewLine(style), ",", "");
    ErasesConcat("," + NewLine(style), b, "," + "", y);
    ErasesConcat(a, "," + NewLine(style) + b, x, "," + "" + y);
    assert "," + "" + y == "," + y;
  }

  lemma ErasesMember(style: Style, m: Member, depth: nat, d: nat)
    ensures Erases(MemberText(style, m, depth), MemberText(Compact, m, d))
    decreases m, 1
  {
    hide Erases, Text, Margin, Gap, Quote;
    var k, t, x := Quote(m.key), Text(style, m.value, depth), Text(Compact, m.value, d);
    LayoutWhite(style, depth);
    ErasesWhite(Margin(style, depth));
    ErasesWhite(Gap(style));
    ErasesQuote(m.key);
    ErasesPlain(":");
    ErasesText(style, m.value, depth, d);
    ErasesConcat(Margin(style, depth), k, "", k);
    ErasesConcat(Margin(style, depth) + k, Gap(style), "" + k, "");
    ErasesConcat(Margin(style, depth) + k + Gap(style), ":", "" + k + "", ":");
    ErasesConcat(Margin(style, depth) + k + Gap(style) + ":", Gap(style), "" + k + "" + ":", "");
    ErasesConcat(Margin(style, depth) + k + Gap(style) + ":" + Gap(style), t, "" + k + "" + ":" + "", x);
    CompactIsPlain(d);
    assert "" + k + "" + ":" + "" + x == MemberText(Compact, m, d);
  }

  lemma {:induction false} ErasesMembers(style: Style, members: seq<Member>, depth: nat, d: nat)
    ensures Erases(MembersText(style, members, depth), MembersText(Compact, members, d))
    decreases members, 2
  {
    hide Erases, MemberText, NewLine;
    CompactIsPlain(d);
    if members == [] {
      ErasesPlain("");
    } else {
      ErasesMember(style, members[0], depth, d);
      if |members| > 1 {
        ErasesMembers(style, members[1..], depth, d);
        ErasesTail(style, MemberText(style, members[0], depth), MemberText(Compact, members[0], d),
                   MembersText(style, members[1..], depth), MembersText(Compact, members[1..], d));
        assert MembersText(Compact, members, d) ==
               MemberText(Compact, members[0], d) + ("," + MembersText(Compact, members[1..], d));
      } else {
        assert MembersText(style, members, depth) == MemberText(style, members[0], depth);
        assert MembersText(Compact, members, d) == MemberText(Compact, members[0], d);
      }
    }
  }

  /** The significant characters of what is printed are the compact text. */
  lemma PrintedErasesToCompact(v: Value)
    ensures Erase(Outside, Printed(v, 0)) == Text(Compact, v, 0)
  {
    ErasesText(Pretty, v, 0, 0);
    ErasesWhite("\n");
    ErasesConcat(Text(Pretty, v, 0), "\n", Text(Compact, v, 0), "");
  }
}
