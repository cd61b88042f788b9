/** The text the item code generator prints (scripts/generate_items.py):
  * a header, one Go variable per item record, and a lookup array indexed
  * by item id. The records come from a URL and the timestamp from the
  * clock, and `stringcase.pascalcase` is a foreign library: all three are
  * parameters. Each `print` is one line of the output, without its line
  * break. */
module GenerateItems {
  import opened Bytes

  /** One record of items.json, with the fields the script reads. */
  datatype ItemRecord = ItemRecord(id: int, name: string, stackSize: int)

  function Digit(d: nat): (c: char)
    requires d < 10
    ensures '0' <= c <= '9' && c as int - '0' as int == d
  {
    (('0' as int) + d) as char
  }

  /** Python's `str` of a natural number: its decimal digits, most
    * significant first. */
  function Decimal(n: nat): (s: string)
    ensures |s| >= 1 && forall i :: 0 <= i < |s| ==> '0' <= s[i] <= '9'
    ensures |s| > 1 ==> s[0] != '0'
    decreases n
  {
    if n < 10 then [Digit(n)] else Decimal(n / 10) + [Digit(n % 10)]
  }

  /** Python's `str` of an integer: a minus sign before a negative one. */
  function IntText(n: int): (s: string)
    ensures |s| >= 1
    ensures n < 0 <==> s[0] == '-'
  {
    if n < 0 then "-" + Decimal(-n) else Decimal(n)
  }

  /** The number a string of decimal digits denotes. */
  function DigitsValue(s: string): nat
    requires forall i :: 0 <= i < |s| ==> '0' <= s[i] <= '9'
  {
    if s == [] then 0 else DigitsValue(s[..|s| - 1]) * 10 + (s[|s| - 1] as int - '0' as int)
  }

  /** Reading the digits back gives the number: the decimal text loses
    * nothing. */
  lemma {:induction false} DecimalRoundTrip(n: nat)
    ensures DigitsValue(Decimal(n)) == n
    decreases n
  {
    if n >= 10 {
      DecimalRoundTrip(n / 10);
      var s := Decimal(n);
      assert s[..|s| - 1] == Decimal(n / 10);
    }
  }

  /** Distinct natural numbers have distinct decimal texts. */
  lemma DecimalInjective(m: nat, n: nat)
    requires Decimal(m) == Decimal(n)
    ensures m == n
  {
    DecimalRoundTrip(m);
    DecimalRoundTrip(n);
  }

  /** The text of a negative number is a minus sign before the digits of
    * its absolute value. */
  lemma NegativeText(m: int)
    requires m < 0
    ensures IntText(m)[1..] == Decimal(-m)
  {
    assert IntText(m) == "-" + Decimal(-m);
  }

  /** Distinct integers have distinct texts: the sign is told apart by the
    * first character, and the digits by `DecimalInjective`. */
  lemma IntTextInjective(m: int, n: int)
    requires IntText(m) == IntText(n)
    ensures m == n
  {
    if m < 0 {
      NegativeText(m);
      NegativeText(n);
      DecimalInjective(-m, -n);
    } else {
      DecimalInjective(m, n);
    }
  }

  /** The six lines before the declarations: the generated-code marker,
    * the robots line, the timestamp, a blank line, the package clause and
    * a blank line. */
  function Header(now: string): (r: seq<string>)
    ensures |r| == 6
  {
    ["// Code generated by scripts/generate_items.go; DO NOT EDIT.",
     "// This file was generated by robots at",
     "// " + now,
     "",
     "package item",
     ""]
  }

  /** The five-line declaration of one item. The name goes between double
    * quotes as it is, without escaping. */
  function ItemBlock(it: ItemRecord, pascal: string -> string): (r: seq<string>)
    ensures |r| == 5
  {
    ["var " + pascal(it.name) + " = &Item{",
     "\tID: " + IntText(it.id) + ",",
     "\tName: \"" + it.name + "\",",
     "\tStackSize: " + IntText(it.stackSize) + ",",
     "}"]
  }

  /** The declarations of all records, in input order. */
  function Decls(items: seq<ItemRecord>, pascal: string -> string): (r: seq<string>)
    ensures |r| == 5 * |items|
  {
    if items == [] then [] else Decls(items[..|items| - 1], pascal) + ItemBlock(items[|items| - 1], pascal)
  }

  /** One entry of the lookup array. */
  function LookupLine(it: ItemRecord, pascal: string -> string): string
  {
    "\t" + IntText(it.id) + ": " + pascal(it.name) + ","
  }

  /** The entries of the lookup array, in input order. */
  function Lookup(items: seq<ItemRecord>, pascal: string -> string): (r: seq<string>)
    ensures |r| == |items|
  {
    if items == [] then [] else Lookup(items[..|items| - 1], pascal) + [LookupLine(items[|items| - 1], pascal)]
  }

  const LookupOpen := "var items = [...]*Item{"

  /** Everything the script prints. */
  function Output(items: seq<ItemRecord>, now: string, pascal: string -> string): (r: seq<string>)
    ensures |r| == 10 + 6 * |items|
  {
    Header(now) + Decls(items, pascal) + ["", LookupOpen] + Lookup(items, pascal) + ["}", ""]
  }

  /** The body of the first loop for one record: its five lines. */
  method EmitBlock(out0: seq<string>, it: ItemRecord, pascal: string -> string) returns (out: seq<string>)
    ensures out == out0 + ItemBlock(it, pascal)
  {
    var name := pascal(it.name);
    var l0 := "var " + name + " = &Item{";
    var l1 := "\tID: " + IntText(it.id) + ",";
    var l2 := "\tName: \"" + it.name + "\",";
    var l3 := "\tStackSize: " + IntText(it.stackSize) + ",";
    out := out0 + [l0];
    out := out + [l1];
    out := out + [l2];
    out := out + [l3];
    out := out + ["}"];
    assert ItemBlock(it, pascal) == [l0, l1, l2, l3, "}"];
  }

  /** The first loop: each record's declaration, in input order. */
  method EmitDecls(out0: seq<string>, items: seq<ItemRecord>, pascal: string -> string) returns (out: seq<string>)
    ensures out == out0 + Decls(items, pascal)
  {
    out := out0;
    for i := 0 to |items|
      invariant out == out0 + Decls(items[..i], pascal)
    {
      ghost var prev := items[..i];
      assert items[..i + 1][..i] == prev;
      assert Decls(items[..i + 1], pascal) == Decls(prev, pascal) + ItemBlock(items[i], pascal);
      out := EmitBlock(out, items[i], pascal);
      Append3(out0, Decls(prev, pascal), ItemBlock(items[i], pascal));
    }
    assert items[..|items|] == items;
  }

  /** The second loop: each record's lookup entry, in input order. */
  method EmitLookup(out0: seq<string>, items: seq<ItemRecord>, pascal: string -> string) returns (out: seq<string>)
    ensures out == out0 + Lookup(items, pascal)
  {
    out := out0;
    for i := 0 to |items|
      invariant out == out0 + Lookup(items[..i], pascal)
    {
      var name := pascal(items[i].name);
      ghost var prev := items[..i];
      assert items[..i + 1][..i] == prev;
      assert Lookup(items[..i + 1], pascal) == Lookup(prev, pascal) + [LookupLine(items[i], pascal)];
      out := out + ["\t" + IntText(items[i].id) + ": " + name + ","];
      Append3(out0, Lookup(prev, pascal), [LookupLine(items[i], pascal)]);
    }
    assert items[..|items|] == items;
  }

  /** The script: the header, a loop printing each record's declaration, a
    * blank line, and a loop printing the lookup array. */
  method Generate(items: seq<ItemRecord>, now: string, pascal: string -> string) returns (out: seq<string>)
    ensures out == Output(items, now, pascal)
  {
    out := [];
    out := out + ["// Code generated by scripts/generate_items.go; DO NOT EDIT."];
    out := out + ["// This file was generated by robots at"];
    out := out + ["// " + now];
    out := out + [""];
    out := out + ["package item"];
    out := out + [""];
    assert out == Header(now);
    out := EmitDecls(out, items, pascal);
    out := out + [""];
    out := out + [LookupOpen];
    out := EmitLookup(out, items, pascal);
    out := out + ["}"];
    out := out + [""];
  }

  /** A slice within the first part of a concatenation. */
  lemma SliceOfFirst<T>(a: seq<T>, b: seq<T>, i: nat, j: nat)
    requires i <= j <= |a|
    ensures (a + b)[i..j] == a[i..j]
  {
  }

  /** Five-line block `k` of `a + b`, where `a` holds `m` blocks and `b`
    * is one more block. */
  lemma {:induction false} BlockOfAppend<T>(a: seq<T>, b: seq<T>, m: nat, k: nat)
    requires |a| == 5 * m && |b| == 5 && k <= m
    ensures 5 * k + 5 <= |a + b|
    ensures k < m ==> (a + b)[5 * k..5 * k + 5] == a[5 * k..5 * k + 5]
    ensures k == m ==> (a + b)[5 * k..5 * k + 5] == b
  {
    if k < m {
      assert 5 * k + 5 <= 5 * m;
      SliceOfFirst(a, b, 5 * k, 5 * k + 5);
    }
  }

  /** Record `k`'s declaration occupies lines `5k` to `5k + 4` of the
    * declarations. */
  lemma {:induction false} DeclsAt(items: seq<ItemRecord>, pascal: string -> string, k: nat)
    requires k < |items|
    ensures Decls(items, pascal)[5 * k..5 * k + 5] == ItemBlock(items[k], pascal)
  {
    var init := items[..|items| - 1];
    BlockOfAppend(Decls(init, pascal), ItemBlock(items[|items| - 1], pascal), |init|, k);
    if k < |init| {
      DeclsAt(init, pascal, k);
      assert init[k] == items[k];
    }
  }

  /** Record `k`'s lookup entry is line `k` of the lookup lines. */
  lemma {:induction false} LookupAt(items: seq<ItemRecord>, pascal: string -> string, k: nat)
    requires k < |items|
    ensures Lookup(items, pascal)[k] == LookupLine(items[k], pascal)
  {
    if k < |items| - 1 {
      LookupAt(items[..|items| - 1], pascal, k);
    }
  }

  /** Where the lines of the five parts of the output sit, with the
    * declarations `dn` lines long and block `k` starting at line `dk` of
    * them. */
  lemma {:induction false} Parts<T>(h: seq<T>, d: seq<T>, m: seq<T>, l: seq<T>, t: seq<T>, out: seq<T>, dk: nat, dn: nat, k: nat)
    requires out == h + d + m + l + t
    requires |h| == 6 && |d| == dn && dk + 5 <= dn && |m| == 2 && k < |l| && |t| == 2
    ensures out[..6] == h
    ensures out[6 + dk..11 + dk] == d[dk..dk + 5]
    ensures out[6 + dn] == m[0] && out[7 + dn] == m[1]
    ensures out[8 + dn + k] == l[k]
    ensures out[8 + dn + |l|..] == t
  {
    assert out[6 + dk..11 + dk] == d[dk..dk + 5] by {
      var a, b := out[6 + dk..11 + dk], d[dk..dk + 5];
      forall i | 0 <= i < 5
        ensures a[i] == b[i]
      {
      }
    }
  }

  /** The header and one block of the declarations, located in the whole
    * output. */
  lemma BlockOfParts<T>(h: seq<T>, d: seq<T>, m: seq<T>, l: seq<T>, t: seq<T>, out: seq<T>, dk: nat, block: seq<T>)
    requires out == h + d + m + l + t
    requires |h| == 6 && dk + 5 <= |d| && d[dk..dk + 5] == block
    ensures out[..6] == h
    ensures out[6 + dk..11 + dk] == block
  {
    assert out[6 + dk..11 + dk] == d[dk..dk + 5] by {
      var a, b := out[6 + dk..11 + dk], d[dk..dk + 5];
      forall i | 0 <= i < 5
        ensures a[i] == b[i]
      {
      }
    }
  }

  lemma BlockFits(k: nat, n: nat)
    requires k < n
    ensures 5 * k + 5 <= 5 * n
  {
  }

  /** The first half of the output: six header lines, then five lines per
    * record in input order. */
  lemma DeclsLayout(items: seq<ItemRecord>, now: string, pascal: string -> string, k: nat)
    requires k < |items|
    ensures Output(items, now, pascal)[..6] == Header(now)
    ensures Output(items, now, pascal)[6 + 5 * k..11 + 5 * k] == ItemBlock(items[k], pascal)
  {
    DeclsAt(items, pascal, k);
    BlockFits(k, |items|);
    BlockOfParts(Header(now), Decls(items, pascal), ["", LookupOpen], Lookup(items, pascal), ["}", ""],
      Output(items, now, pascal), 5 * k, ItemBlock(items[k], pascal));
  }

  /** The second half of the output: a blank line and the opening of the
    * lookup array, one entry per record in input order, and the closing
    * brace and a blank line. */
  lemma LookupLayout(items: seq<ItemRecord>, now: string, pascal: string -> string, k: nat)
    requires k < |items|
    ensures Output(items, now, pascal)[6 + 5 * |items|] == ""
    ensures Output(items, now, pascal)[7 + 5 * |items|] == LookupOpen
    ensures Output(items, now, pascal)[8 + 5 * |items| + k] == LookupLine(items[k], pascal)
    ensures Output(items, now, pascal)[8 + 6 * |items|..] == ["}", ""]
  {
    LookupAt(items, pascal, k);
    BlockFits(k, |items|);
    Parts(Header(now), Decls(items, pascal), ["", LookupOpen], Lookup(items, pascal), ["}", ""],
      Output(items, now, pascal), 5 * k, 5 * |items|, k);
    assert Output(items, now, pascal)[8 + 5 * |items| + k] == Lookup(items, pascal)[k];
  }

  /** The layout of the output: six header lines, five lines per record in
    * input order, a blank line and the opening of the lookup array, one
    * entry per record in input order, and the closing brace and a blank
    * line. Both blocks use the same `pascalcase(name)` for a record. */
  lemma OutputLayout(items: seq<ItemRecord>, now: string, pascal: string -> string, k: nat)
    requires k < |items|
    ensures Output(items, now, pascal)[..6] == Header(now)
    ensures Output(items, now, pascal)[6 + 5 * k..11 + 5 * k] == ItemBlock(items[k], pascal)
    ensures Output(items, now, pascal)[6 + 5 * |items|] == ""
    ensures Output(items, now, pascal)[7 + 5 * |items|] == LookupOpen
    ensures Output(items, now, pascal)[8 + 5 * |items| + k] == LookupLine(items[k], pascal)
    ensures Output(items, now, pascal)[8 + 6 * |items|..] == ["}", ""]
  {
    DeclsLayout(items, now, pascal, k);
    LookupLayout(items, now, pascal, k);
  }

  /** Nothing is checked: a list that repeats a record prints its
    * declaration and its lookup entry twice, which no longer compiles as
    * Go. */
  lemma DuplicatesPassThrough(it: ItemRecord, now: string, pascal: string -> string)
    ensures var out := Output([it, it], now, pascal);
      out[6..11] == ItemBlock(it, pascal) && out[11..16] == ItemBlock(it, pascal) &&
      out[18] == out[19] == LookupLine(it, pascal)
  {
    OutputLayout([it, it], now, pascal, 0);
    OutputLayout([it, it], now, pascal, 1);
  }
}
