/**
 The printer of configurations: it writes a value to the output piece by piece,
 keeping a stack of margins.  What it writes is the indented layout, which reads
 back to the value and whose significant characters are those of the compact one.
 */
module Printer {
  import opened Json
  import opened JsonReader

  class Output {
    var text: string

    constructor ()
      ensures text == ""
    {
      text := "";
    }

    method Print(s: string)
      modifies this
      ensures text == old(text) + s
    {
      text := text + s;
    }
  }

  /** The stack of margins; it is handed to nested values by copy. */
  datatype Indent = Indent(stack: seq<string>) {
    function Level(): nat { |stack| }

    function Margin(): string {
      if stack == [] then "" else stack[|stack| - 1]
    }

    function Push(): Indent { Indent(stack + [Margin() + "    "]) }

    function Pop(): Indent
      requires stack != []
    {
      Indent(stack[..|stack| - 1])
    }

    /** The margin at every level is four spaces wider than the one below. */
    ghost predicate Valid() {
      forall k :: 0 <= k < |stack| ==> stack[k] == Spaces(4 * (k + 1))
    }

    lemma MarginIs()
      requires Valid()
      ensures this.Margin() == Json.Margin(Pretty, Level())
    {
    }

    lemma PushValid()
      requires Valid()
      ensures Push().Valid() && Push().Level() == Level() + 1 && Push().Pop() == this
    {
      SpacesAdd(4 * Level());
    }
  }

  lemma SpacesAdd(n: nat)
    ensures Spaces(n) + "    " == Spaces(n + 4)
  {
    SpacesCommute(n);
    SpacesCommute(n + 1);
    SpacesCommute(n + 2);
    SpacesCommute(n + 3);
    assert Spaces(n) + "    " == Spaces(n) + " " + " " + " " + " ";
  }

  lemma {:induction false} SpacesCommute(n: nat)
    ensures Spaces(n) + " " == Spaces(n + 1)
  {
    if n > 0 {
      SpacesCommute(n - 1);
      assert Spaces(n) + " " == " " + (Spaces(n - 1) + " ");
    }
  }

  /** What printing v at the given nesting depth writes: at the top a line feed ends it. */
  function Printed(v: Value, depth: nat): string {
    Text(Pretty, v, depth) + if depth == 0 then "\n" else ""
  }

  method PrettyPrint(v: Value, indent: Indent, out: Output)
    requires indent.Valid()
    modifies out
    ensures out.text == old(out.text) + Printed(v, indent.Level())
    decreases v, 0
  {
    match v {
      case Obj(members) => PrintObject(members, indent, out);
      case Arr(items) => PrintArray(items, indent, out);
      case Str(s) => out.Print(Quote(s));
      case Uint(u) => out.Print(Number(u));
      case Int(n) => out.Print(Number(n));
      case Bool(b) =>
        if b {
          out.Print("true");
        } else {
          out.Print("false");
        }
      case Null => out.Print("null");
    }
    if indent.Level() == 0 {
      out.Print("\n");
    }
  }

  /** One turn of the loop over the items: an item, then the separator and the others. */
  lemma ItemsTurn(items: seq<Value>, i: nat, depth: nat)
    requires i < |items| && 0 < depth
    ensures ItemsText(Pretty, items[i..], depth) ==
            Spaces(4 * depth) + Printed(items[i], depth) +
            if i + 1 == |items| then "" else ",\n" + ItemsText(Pretty, items[i + 1..], depth)
  {
    assert items[i..][1..] == items[i + 1..];
  }

  lemma MembersTurn(members: seq<Member>, i: nat, depth: nat)
    requires i < |members| && 0 < depth
    ensures MembersText(Pretty, members[i..], depth) ==
            Spaces(4 * depth) + Quote(members[i].key) + " : " + Printed(members[i].value, depth) +
            if i + 1 == |members| then "" else ",\n" + MembersText(Pretty, members[i + 1..], depth)
  {
    assert members[i..][1..] == members[i + 1..];
    assert MemberText(Pretty, members[i], depth) ==
           Spaces(4 * depth) + Quote(members[i].key) + " : " + Text(Pretty, members[i].value, depth);
  }

  lemma ArrayText(items: seq<Value>, depth: nat)
    ensures Text(Pretty, Arr(items), depth) ==
            "[\n" + ItemsText(Pretty, items, depth + 1) + ("\n" + Json.Margin(Pretty, depth) + "]")
  {
  }

  lemma ObjectText(members: seq<Member>, depth: nat)
    ensures Text(Pretty, Obj(members), depth) ==
            "{\n" + MembersText(Pretty, members, depth + 1) + ("\n" + Json.Margin(Pretty, depth) + "}")
  {
  }

  method PrintArray(items: seq<Value>, indent0: Indent, out: Output)
    requires indent0.Valid()
    modifies out
    ensures out.text == old(out.text) + Text(Pretty, Arr(items), indent0.Level())
    decreases items, 2
  {
    hide Text, ItemsText, MembersText, Spaces;
    var indent := indent0;
    out.Print("[\n");
    indent.PushValid();
    indent := indent.Push();
    indent.MarginIs();
    PrintItems(items, indent, out);
    indent := indent.Pop();
    indent.MarginIs();
    out.Print("\n" + indent.Margin() + "]");
    ArrayText(items, indent0.Level());
  }

  method PrintItems(items: seq<Value>, indent: Indent, out: Output)
    requires indent.Valid() && 0 < indent.Level()
    modifies out
    ensures out.text == old(out.text) + ItemsText(Pretty, items, indent.Level())
    decreases items, 1
  {
    hide ItemsText, Printed, Spaces;
    if items == [] {
      assert ItemsText(Pretty, items, indent.Level()) == "" by { NoItems(indent.Level()); }
      return;
    }
    ghost var whole := old(out.text) + ItemsText(Pretty, items, indent.Level());
    indent.MarginIs();
    var i := 0;
    assert items[0..] == items;
    while true
      invariant 0 <= i < |items|
      invariant whole == out.text + ItemsText(Pretty, items[i..], indent.Level())
      decreases |items| - i
    {
      ItemsTurn(items, i, indent.Level());
      out.Print(indent.Margin());
      PrettyPrint(items[i], indent, out);
      i := i + 1;
      if i == |items| {
        break;
      }
      out.Print(",\n");
    }
  }

  lemma NoItems(depth: nat)
    ensures ItemsText(Pretty, [], depth) == "" && MembersText(Pretty, [], depth) == ""
  {
  }

  method PrintObject(members: seq<Member>, indent0: Indent, out: Output)
    requires indent0.Valid()
    modifies out
    ensures out.text == old(out.text) + Text(Pretty, Obj(members), indent0.Level())
    decreases members, 2
  {
    hide Text, ItemsText, MembersText, Spaces;
    var indent := indent0;
    out.Print("{\n");
    indent.PushValid();
    indent := indent.Push();
    indent.MarginIs();
    PrintMembers(members, indent, out);
    indent := indent.Pop();
    indent.MarginIs();
    out.Print("\n" + indent.Margin() + "}");
    ObjectText(members, indent0.Level());
  }

  method PrintMembers(members: seq<Member>, indent: Indent, out: Output)
    requires indent.Valid() && 0 < indent.Level()
    modifies out
    ensures out.text == old(out.text) + MembersText(Pretty, members, indent.Level())
    decreases members, 1
  {
    hide MembersText, Printed, Spaces, Quote;
    if members == [] {
      assert MembersText(Pretty, members, indent.Level()) == "" by { NoItems(indent.Level()); }
      return;
    }
    ghost var whole := old(out.text) + MembersText(Pretty, members, indent.Level());
    indent.MarginIs();
    var i := 0;
    assert members[0..] == members;
    while true
      invariant 0 <= i < |members|
      invariant whole == out.text + MembersText(Pretty, members[i..], indent.Level())
      decreases |members| - i
    {
      MembersTurn(members, i, indent.Level());
      out.Print(indent.Margin());
      out.Print(Quote(members[i].key));
      out.Print(" : ");
      PrettyPrint(members[i].value, indent, out);
      i := i + 1;
      if i == |members| {
        break;
      }
      out.Print(",\n");
    }
  }

  /** What is printed for a whole value is a JSON text that reads back to the value. */
  lemma PrintedReadsBack(v: Value)
    ensures Read(Printed(v, 0)) == Parsed(Canonical(v), "")
  {
    hide Read, Text, Canonical;
    ReadsBack(Pretty, v, "\n");
  }
}
