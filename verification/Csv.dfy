/** The comma-separated form of a list of URLs, which the library reads and the parser also accepts. */
module Csv {

  /** Non-empty and free of commas: what one entry of a list must be to survive the CSV form. */
  predicate IsEntry(s: string) {
    s != "" && ',' !in s
  }

  predicate AllEntries(v: seq<string>) {
    forall i :: 0 <= i < |v| ==> IsEntry(v[i])
  }

  // ---------------------------------------------------------------------------
  // Specification
  // ---------------------------------------------------------------------------

  /** Where the first comma is, or the end. */
  function CommaAt(s: string): (n: nat)
    ensures n <= |s|
  {
    if s == "" || s[0] == ',' then 0 else 1 + CommaAt(s[1..])
  }

  /** The text up to the first comma. */
  function Field(s: string): string {
    s[..CommaAt(s)]
  }

  /** What is left after the first field and its comma. */
  function AfterField(s: string): string {
    if CommaAt(s) == |s| then "" else s[CommaAt(s) + 1..]
  }

  /** The non-empty fields between commas, in order. */
  function Split(s: string): seq<string>
    decreases |s|
  {
    if s == "" then [] else Kept(Field(s)) + Split(AfterField(s))
  }

  function Kept(field: string): seq<string> {
    if field == "" then [] else [field]
  }

  /** One more entry after what has been joined; the separator only when something is there. */
  function Append(out: string, s: string): string {
    (if out != "" then out + "," else out) + s
  }

  function JoinOnto(out: string, v: seq<string>): string
    decreases |v|
  {
    if v == [] then out else JoinOnto(Append(out, v[0]), v[1..])
  }

  function Join(v: seq<string>): string {
    JoinOnto("", v)
  }

  // ---------------------------------------------------------------------------
  // Round trips
  // ---------------------------------------------------------------------------

  lemma {:induction false} NoCommaBefore(s: string)
    ensures ',' !in Field(s)
  {
    if s != "" && s[0] != ',' {
      NoCommaBefore(s[1..]);
      assert Field(s) == [s[0]] + Field(s[1..]);
    }
  }

  lemma {:induction false} SplitIsEntries(s: string)
    ensures AllEntries(Split(s))
    decreases |s|
  {
    if s != "" {
      NoCommaBefore(s);
      SplitIsEntries(AfterField(s));
    }
  }

  lemma {:induction false} CommaAfterEntry(s: string, rest: string)
    requires ',' !in s && (rest == "" || rest[0] == ',')
    ensures CommaAt(s + rest) == |s|
  {
    if s != "" {
      assert (s + rest)[1..] == s[1..] + rest;
      CommaAfterEntry(s[1..], rest);
    } else {
      assert s + rest == rest;
    }
  }

  /** Each entry after a comma: what joining adds once something is there. */
  function Tail(v: seq<string>): string {
    if v == [] then "" else "," + v[0] + Tail(v[1..])
  }

  lemma {:induction false} JoinOntoIsTail(out: string, v: seq<string>)
    requires out != ""
    ensures JoinOnto(out, v) == out + Tail(v)
    decreases |v|
  {
    if v != [] {
      JoinOntoIsTail(Append(out, v[0]), v[1..]);
      assert out + "," + v[0] + Tail(v[1..]) == out + ("," + v[0] + Tail(v[1..]));
    }
  }

  lemma {:induction false} SplitHead(s: string, v: seq<string>)
    requires IsEntry(s) && AllEntries(v)
    ensures Split(s + Tail(v)) == [s] + v
    decreases |v|
  {
    var whole := s + Tail(v);
    CommaAfterEntry(s, Tail(v));
    assert Field(whole) == s;
    if v == [] {
      assert AfterField(whole) == "";
    } else {
      assert Tail(v) == "," + (v[0] + Tail(v[1..]));
      assert AfterField(whole) == v[0] + Tail(v[1..]);
      SplitHead(v[0], v[1..]);
      assert [v[0]] + v[1..] == v;
    }
  }

  /** Splitting what was joined gives the list back, if and only if every entry is non-empty and has
      no comma in it. */
  lemma SplitUndoesJoin(v: seq<string>)
    ensures Split(Join(v)) == v <==> AllEntries(v)
  {
    SplitIsEntries(Join(v));
    if AllEntries(v) && v != [] {
      JoinOntoIsTail(v[0], v[1..]);
      SplitHead(v[0], v[1..]);
      assert Append("", v[0]) == v[0];
      assert [v[0]] + v[1..] == v;
    }
  }

  /** Whatever the text, joining its fields and splitting again changes nothing. */
  lemma SplitJoinSplit(s: string)
    ensures Split(Join(Split(s))) == Split(s)
  {
    SplitIsEntries(s);
    SplitUndoesJoin(Split(s));
  }

  // ---------------------------------------------------------------------------
  // The loops
  // ---------------------------------------------------------------------------

  method JoinCsv(v: seq<string>) returns (out: string)
    ensures out == Join(v)
    ensures AllEntries(v) ==> Split(out) == v
  {
    out := "";
    for i := 0 to |v|
      invariant JoinOnto(out, v[i..]) == Join(v)
    {
      if out != "" {
        out := out + ",";
      }
      assert v[i..][1..] == v[i + 1..];
      out := out + v[i];
    }
    SplitUndoesJoin(v);
  }

  /** Read up to the next comma, which is dropped, or to the end. */
  method ReadField(s: string) returns (item: string, rest: string)
    ensures item == Field(s) && rest == AfterField(s)
  {
    var end := 0;
    while end < |s| && s[end] != ','
      invariant 0 <= end <= |s| && CommaAt(s) == end + CommaAt(s[end..])
    {
      assert s[end..][1..] == s[end + 1..];
      end := end + 1;
    }
    item := s[..end];
    rest := if end == |s| then "" else s[end + 1..];
  }

  lemma Consume(out: seq<string>, rest: string, whole: seq<string>)
    requires rest != "" && out + Split(rest) == whole
    ensures (out + Kept(Field(rest))) + Split(AfterField(rest)) == whole
    ensures out + Kept(Field(rest)) == if Field(rest) != "" then out + [Field(rest)] else out
  {
    Regroup(out, Kept(Field(rest)), Split(AfterField(rest)));
  }

  lemma Regroup(a: seq<string>, b: seq<string>, c: seq<string>)
    ensures (a + b) + c == a + (b + c)
  {
  }

  /** Reading field by field, as a line reader does; empty fields are dropped, and nothing follows a
      final comma. */
  method SplitCsv(s: string) returns (out: seq<string>)
    ensures out == Split(s)
  {
    out := [];
    ghost var whole := Split(s);
    var rest := s;
    while rest != ""
      invariant out + Split(rest) == whole
      decreases |rest|
    {
      Consume(out, rest, whole);
      var item, after := ReadField(rest);
      if item != "" {
        out := out + [item];
      }
      rest := after;
    }
  }
}
