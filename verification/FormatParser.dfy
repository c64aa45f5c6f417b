/** The log pattern parser: what it reads, the printer it inverts, and the loop that does the reading. */
module FormatParser {
  import opened Common

  /** Text, a `%name{format}` item, or the report of an unterminated group. */
  datatype Token = Literal(text: string) | Item(name: string, fmt: string) | PatternError

  /** The tuple the program stores for a token. */
  function Tuple(t: Token): (string, string, int) {
    match t
    case Literal(text) => (text, "", 0)
    case Item(name, fmt) => (name, fmt, 1)
    case PatternError => ("<<pattern_error>>", "", 0)
  }

  function Tuples(ts: seq<Token>): seq<(string, string, int)> {
    seq(|ts|, i requires 0 <= i < |ts| => Tuple(ts[i]))
  }

  // ---- what one pattern means ----

  predicate IsAlpha(c: char) {
    'a' <= c <= 'z' || 'A' <= c <= 'Z'
  }

  /** `isalpha` in the C locale: the ASCII letters by their codes. */
  lemma AlphaIff(c: char)
    ensures IsAlpha(c) <==> 0x41 <= c as int <= 0x5a || 0x61 <= c as int <= 0x7a
  {
  }

  /** Characters the name of an item runs over. */
  predicate NameChar(c: char) {
    IsAlpha(c) || c == '}'
  }

  /** Length of the longest prefix of name characters. */
  function NameLen(s: string): (k: nat)
    ensures k <= |s|
    ensures forall i :: 0 <= i < k ==> NameChar(s[i])
    ensures k < |s| ==> !NameChar(s[k])
  {
    if s == "" || !NameChar(s[0]) then 0 else NameLen(s[1..]) + 1
  }

  /** Position of the first closing brace, or the length of the text. */
  function CloseAt(s: string): (e: nat)
    ensures e <= |s|
    ensures forall i :: 0 <= i < e ==> s[i] != '}'
    ensures e < |s| ==> s[e] == '}'
  {
    if s == "" || s[0] == '}' then 0 else CloseAt(s[1..]) + 1
  }

  datatype Parsed = Parsed(name: string, fmt: string, len: nat)

  /** The item at a percent sign, or None when its group is never closed. */
  function ItemAt(s: string): (p: Option<Parsed>)
    requires s != ""
    ensures p.Some? ==> 1 <= p.value.len <= |s|
  {
    var r := s[1..];
    var k := NameLen(r);
    if k < |r| && r[k] == '{' then
      var e := CloseAt(r[k + 1..]);
      if e == |r[k + 1..]| then None else Some(Parsed(r[..k], r[k + 1..][..e], k + e + 3))
    else Some(Parsed(r[..k], "", k + 1))
  }

  function Lit(lit: string): seq<Token> {
    if lit == "" then [] else [Literal(lit)]
  }

  predicate Escape(s: string) {
    |s| > 1 && s[0] == '%' && s[1] == '%'
  }

  /** The tokens of `s` when the literal `lit` is still open. Only the first percent sign of a pair is consumed,
      and an unterminated group consumes nothing but its percent sign. */
  function Scan(s: string, lit: string): seq<Token>
    decreases |s|
  {
    if s == "" then Lit(lit)
    else if s[0] != '%' || Escape(s) then Scan(s[1..], lit + [s[0]])
    else
      match ItemAt(s)
      case None => [PatternError] + Scan(s[1..], lit)
      case Some(p) => Lit(lit) + [Item(p.name, p.fmt)] + Scan(s[p.len..], "")
  }

  function Parse(s: string): seq<Token> {
    Scan(s, "")
  }

  // ---- the printer ----

  function PrintToken(t: Token): string {
    match t
    case Literal(text) => text
    case Item(name, fmt) => "%" + name + if fmt == "" then "" else "{" + fmt + "}"
    case PatternError => "<<pattern_error>>"
  }

  function Print(ts: seq<Token>): string {
    if ts == [] then "" else PrintToken(ts[0]) + Print(ts[1..])
  }

  predicate NoErrors(ts: seq<Token>) {
    forall t :: t in ts ==> !t.PatternError?
  }

  /** How many items of the pattern carry an empty group, which the tokens do not record. */
  function EmptyGroups(s: string): nat
    decreases |s|
  {
    if s == "" then 0
    else if s[0] != '%' || Escape(s) then EmptyGroups(s[1..])
    else
      match ItemAt(s)
      case None => EmptyGroups(s[1..])
      case Some(p) => (if EmptyGroup(p) then 1 else 0) + EmptyGroups(s[p.len..])
  }

  lemma {:induction false} PrintConcat(a: seq<Token>, b: seq<Token>)
    ensures Print(a + b) == Print(a) + Print(b)
  {
    if a == [] {
      assert a + b == b;
    } else {
      assert (a + b)[1..] == a[1..] + b;
      PrintConcat(a[1..], b);
    }
  }

  lemma GroupText(s: string, k: nat, e: nat)
    requires k + e + 3 <= |s| && s[0] == '%' && s[k + 1] == '{' && s[k + e + 2] == '}'
    ensures s[..k + e + 3] == "%" + s[1..][..k] + ("{" + s[1..][k + 1..][..e] + "}")
  {
    var t := "%" + s[1..][..k] + ("{" + s[1..][k + 1..][..e] + "}");
    assert |t| == k + e + 3;
    forall i | 0 <= i < k + e + 3 ensures t[i] == s[i] {
      if i == 0 || i == k + 1 || i == k + e + 2 {
      } else if i < k + 1 {
        assert t[i] == s[1..][i - 1];
      } else {
        assert t[i] == s[1..][k + 1..][i - k - 2];
      }
    }
  }

  predicate EmptyGroup(p: Parsed) {
    p.fmt == "" && p.len == |p.name| + 3
  }

  /** The text an item was read from is the text it prints, but for an empty group. */
  lemma BareText(s: string, k: nat)
    requires s != "" && s[0] == '%' && k <= |s[1..]|
    ensures s[..k + 1] == "%" + s[1..][..k]
  {
  }

  lemma ItemText(s: string)
    requires s != "" && s[0] == '%' && ItemAt(s).Some?
    ensures var p := ItemAt(s).value; var t := Item(p.name, p.fmt);
            if EmptyGroup(p) then |PrintToken(t)| + 2 == p.len else PrintToken(t) == s[..p.len]
  {
    var r := s[1..];
    var k := NameLen(r);
    if k < |r| && r[k] == '{' {
      GroupText(s, k, CloseAt(r[k + 1..]));
    } else {
      BareText(s, k);
    }
  }

  lemma PrintThree(lit: string, t: Token, tail: seq<Token>)
    ensures Print(Lit(lit) + [t] + tail) == lit + PrintToken(t) + Print(tail)
  {
    assert Print([t]) == PrintToken(t) + Print([]);
    PrintConcat(Lit(lit) + [t], tail);
    PrintConcat(Lit(lit), [t]);
  }

  lemma NoErrorsTail(a: seq<Token>, b: seq<Token>)
    requires NoErrors(a + b)
    ensures NoErrors(a) && NoErrors(b)
  {
    assert forall t :: t in a || t in b ==> t in a + b;
  }

  lemma ErrorShows(tail: seq<Token>)
    ensures !NoErrors([PatternError] + tail)
  {
    assert PatternError in [PatternError] + tail;
  }

  lemma Split(lit: string, s: string, n: nat)
    requires n <= |s|
    ensures lit + s == lit + s[..n] + s[n..]
  {
  }

  lemma SplitFirst(lit: string, s: string)
    requires s != ""
    ensures lit + s == lit + [s[0]] + s[1..]
  {
  }

  lemma Empty(s: string)
    ensures s + "" == s && "" + s == s
  {
  }

  /** One item and what its tail prints. */
  lemma ItemLoss(s: string, lit: string, tail: seq<Token>)
    requires s != "" && s[0] == '%' && ItemAt(s).Some?
    ensures var p := ItemAt(s).value; var printed := Print(Lit(lit) + [Item(p.name, p.fmt)] + tail);
            && |printed| + (if EmptyGroup(p) then 2 else 0) == |lit| + p.len + |Print(tail)|
            && (!EmptyGroup(p) && Print(tail) == s[p.len..] ==> printed == lit + s)
  {
    var p := ItemAt(s).value;
    ItemText(s);
    PrintThree(lit, Item(p.name, p.fmt), tail);
    Split(lit, s, p.len);
  }

  /** The parser loses nothing but empty groups. */
  lemma {:induction false} ScanLoss(s: string, lit: string)
    requires NoErrors(Scan(s, lit))
    ensures |Print(Scan(s, lit))| + 2 * EmptyGroups(s) == |lit| + |s|
    ensures EmptyGroups(s) == 0 ==> Print(Scan(s, lit)) == lit + s
    decreases |s|
  {
    if s == "" {
      Empty(lit);
    } else if s[0] != '%' || Escape(s) {
      ScanLoss(s[1..], lit + [s[0]]);
      SplitFirst(lit, s);
    } else if ItemAt(s).None? {
      ErrorShows(Scan(s[1..], lit));
      assert false;
    } else {
      var p := ItemAt(s).value;
      var t := Item(p.name, p.fmt);
      NoErrorsTail(Lit(lit) + [t], Scan(s[p.len..], ""));
      ScanLoss(s[p.len..], "");
      Empty(s[p.len..]);
      ItemLoss(s, lit, Scan(s[p.len..], ""));
    }
  }

  /** Printing the tokens of a pattern without unterminated groups gives the pattern back exactly when no item of
      it has an empty group; pairs of percent signs are no obstacle. */
  lemma PrintUndoesParseIff(pattern: string)
    requires NoErrors(Parse(pattern))
    ensures Print(Parse(pattern)) == pattern <==> EmptyGroups(pattern) == 0
  {
    ScanLoss(pattern, "");
    assert "" + pattern == pattern;
  }

  // ---- unterminated groups ----

  /** A group that is never closed is reported by a tuple of its own, first in the result, and its text is read on as
      if the percent sign had not been there. */
  lemma UnclosedGroup(name: string, rest: string)
    requires (forall c :: c in name ==> NameChar(c)) && '}' !in rest
    ensures var ts := Tuples(Parse("%" + name + "{" + rest));
            ts != [] && ts[0] == ("<<pattern_error>>", "", 0) && ts[1..] == Tuples(Parse(name + "{" + rest))
  {
    var s := "%" + name + "{" + rest;
    var r := name + "{" + rest;
    assert s[1..] == r && r[|name|] == '{' && r[|name| + 1..] == rest;
    NameLenIs(r, |name|);
    CloseAtIs(rest, |rest|);
    assert !Escape(s) && ItemAt(s).None?;
    assert Parse(s) == [PatternError] + Parse(r);
  }

  // ---- the parser undoes the printer ----

  /** What may follow an item that was printed without a group. */
  predicate EndsName(name: string, after: string) {
    after == "" || (!NameChar(after[0]) && after[0] != '{' && (name == "" ==> after[0] != '%'))
  }

  /** A percent sign inside a literal is followed by another one, which at the end means an item follows. */
  predicate PercentsPaired(text: string, after: string) {
    forall i :: 0 <= i < |text| ==> PairedAt(text, after, i)
  }

  predicate PairedAt(text: string, after: string, i: nat)
    requires i < |text|
  {
    text[i] == '%' ==> if i + 1 < |text| then text[i + 1] == '%' else after != "" && after[0] == '%'
  }

  /** Token lists the parser can produce: literals are not empty, not adjacent and pair their percent signs; names
      consist of name characters, formats have no closing brace, and an item without a format is followed by
      nothing that would lengthen it. */
  predicate Canonical(ts: seq<Token>) {
    if ts == [] then true
    else
      && Canonical(ts[1..])
      && match ts[0]
         case Literal(text) =>
           text != "" && (ts[1..] == [] || ts[1].Item?) && PercentsPaired(text, Print(ts[1..]))
         case Item(name, fmt) =>
           && (forall c :: c in name ==> NameChar(c)) && '}' !in fmt
           && (fmt == "" ==> EndsName(name, Print(ts[1..])))
         case PatternError => false
  }

  lemma {:induction false} NameLenIs(r: string, k: nat)
    requires k <= |r| && (forall i :: 0 <= i < k ==> NameChar(r[i])) && (k < |r| ==> !NameChar(r[k]))
    ensures NameLen(r) == k
  {
  }

  lemma CloseAtIs(s: string, e: nat)
    requires e <= |s| && (forall i :: 0 <= i < e ==> s[i] != '}') && (e < |s| ==> s[e] == '}')
    ensures CloseAt(s) == e
  {
  }

  /** Reading back a printed item. */
  lemma PrintedItem(name: string, fmt: string, after: string)
    requires (forall c :: c in name ==> NameChar(c)) && '}' !in fmt && (fmt == "" ==> EndsName(name, after))
    ensures var s := PrintToken(Item(name, fmt)) + after;
            && s != "" && s[0] == '%' && !Escape(s)
            && ItemAt(s) == Some(Parsed(name, fmt, |PrintToken(Item(name, fmt))|))
  {
    var s := PrintToken(Item(name, fmt)) + after;
    if fmt == "" {
      PrintedBare(s, name, after);
    } else {
      PrintedGroup(s, name, fmt, after);
    }
  }

  lemma PrintedBare(s: string, name: string, after: string)
    requires s == "%" + name + after && (forall c :: c in name ==> NameChar(c)) && EndsName(name, after)
    ensures !Escape(s) && ItemAt(s) == Some(Parsed(name, "", |name| + 1))
  {
    var r := s[1..];
    assert r == name + after;
    NameLenIs(r, |name|);
    assert r[..|name|] == name;
  }

  /** Behind the first character come `k` name characters and an opening brace, and then `g`. */
  predicate StartsGroup(s: string, k: nat, name: string, g: string) {
    && s != "" && NameLen(s[1..]) == k < |s[1..]| && s[1..][k] == '{'
    && s[1..][..k] == name && s[1..][k + 1..] == g
  }

  lemma GroupFound(s: string, k: nat, name: string, g: string, e: nat, fmt: string, len: nat)
    requires StartsGroup(s, k, name, g) && CloseAt(g) == e && g[..e] == fmt && len == k + e + 3
    ensures ItemAt(s) == if e == |g| then None else Some(Parsed(name, fmt, len))
  {
  }

  lemma PrintedGroup(s: string, name: string, fmt: string, after: string)
    requires s == "%" + name + "{" + fmt + "}" + after && (forall c :: c in name ==> NameChar(c)) && '}' !in fmt
    ensures !Escape(s) && ItemAt(s) == Some(Parsed(name, fmt, |name| + |fmt| + 3))
  {
    var g := fmt + ("}" + after);
    PrintedName(s, name, g);
    PrintedClose(fmt, after);
    GroupFound(s, |name|, name, g, |fmt|, fmt, |name| + |fmt| + 3);
  }

  lemma PrintedName(s: string, name: string, g: string)
    requires s == "%" + name + "{" + g && (forall c :: c in name ==> NameChar(c))
    ensures StartsGroup(s, |name|, name, g) && !Escape(s)
  {
    assert s[1..] == name + ("{" + g);
    NameLenIs(s[1..], |name|);
  }

  lemma PrintedClose(fmt: string, after: string)
    requires '}' !in fmt
    ensures CloseAt(fmt + ("}" + after)) == |fmt| && (fmt + ("}" + after))[..|fmt|] == fmt
  {
    CloseAtIs(fmt + ("}" + after), |fmt|);
  }

  /** A literal whose percent signs are paired is read through to its end. */
  lemma {:induction false} ReadLiteral(text: string, after: string, lit: string)
    requires PercentsPaired(text, after)
    ensures Scan(text + after, lit) == Scan(after, lit + text)
    decreases |text|
  {
    if text == "" {
      Empty(after);
      Empty(lit);
    } else {
      var s := text + after;
      assert s[1..] == text[1..] + after;
      assert PairedAt(text, after, 0);
      forall i | 0 <= i < |text[1..]| ensures PairedAt(text[1..], after, i) {
        assert PairedAt(text, after, i + 1);
      }
      ReadLiteral(text[1..], after, lit + [s[0]]);
      SplitFirst(lit, text);
    }
  }

  /** A closed group becomes a tuple of its name, its format and 1, after one of the text before it with 0. */
  lemma ClosedGroup(lit: string, name: string, fmt: string, after: string)
    requires lit != "" && '%' !in lit && (forall c :: c in name ==> NameChar(c)) && '}' !in fmt
    ensures Tuples(Parse(lit + ("%" + name + "{" + fmt + "}" + after)))
            == [(lit, "", 0), (name, fmt, 1)] + Tuples(Parse(after))
  {
    var s := "%" + name + "{" + fmt + "}" + after;
    forall i | 0 <= i < |lit| ensures PairedAt(lit, s, i) {
      assert lit[i] in lit;
    }
    ReadLiteral(lit, s, "");
    Empty(lit);
    GroupRead(name, fmt, after, lit);
    TwoTuples(lit, name, fmt, Parse(after));
  }

  lemma GroupRead(name: string, fmt: string, after: string, lit: string)
    requires (forall c :: c in name ==> NameChar(c)) && '}' !in fmt
    ensures Scan("%" + name + "{" + fmt + "}" + after, lit) == Lit(lit) + [Item(name, fmt)] + Parse(after)
  {
    var s := "%" + name + "{" + fmt + "}" + after;
    PrintedGroup(s, name, fmt, after);
    assert s[|name| + |fmt| + 3..] == after;
  }

  lemma TwoTuples(lit: string, name: string, fmt: string, ts: seq<Token>)
    requires lit != ""
    ensures Tuples(Lit(lit) + [Item(name, fmt)] + ts) == [(lit, "", 0), (name, fmt, 1)] + Tuples(ts)
  {
    assert Lit(lit) + [Item(name, fmt)] + ts == [Literal(lit), Item(name, fmt)] + ts;
  }

  lemma TailFromToken(a: string, b: string)
    ensures (a + b)[|a|..] == b
  {
  }

  lemma ReadItem(name: string, fmt: string, after: string, lit: string)
    requires (forall c :: c in name ==> NameChar(c)) && '}' !in fmt && (fmt == "" ==> EndsName(name, after))
    ensures Scan(PrintToken(Item(name, fmt)) + after, lit) == Lit(lit) + [Item(name, fmt)] + Scan(after, "")
  {
    PrintedItem(name, fmt, after);
    TailFromToken(PrintToken(Item(name, fmt)), after);
  }

  lemma Heads(ts: seq<Token>, lit: string)
    requires ts != []
    ensures Lit(lit) + [ts[0]] + ts[1..] == Lit(lit) + ts
    ensures lit == "" ==> Lit(lit) + ts == ts
    ensures ts[0].Literal? && ts[0].text != "" ==> Lit(ts[0].text) + ts[1..] == ts
  {
  }

  lemma LitAlone(lit: string)
    ensures Lit(lit) + [] == Lit(lit)
  {
  }

  /** Printing and reading back a canonical list gives the list, for any literal left open before it that the
      list does not continue. */
  lemma {:induction false} CanonicalReadsBack(ts: seq<Token>, lit: string)
    requires Canonical(ts) && (lit == "" || ts == [] || ts[0].Item?)
    ensures Scan(Print(ts), lit) == Lit(lit) + ts
    decreases |ts|
  {
    if ts == [] {
      LitAlone(lit);
    } else if ts[0].Literal? {
      var text := ts[0].text;
      ReadLiteral(text, Print(ts[1..]), "");
      Empty(text);
      CanonicalReadsBack(ts[1..], text);
      Heads(ts, "");
    } else {
      var Item(name, fmt) := ts[0];
      ReadItem(name, fmt, Print(ts[1..]), lit);
      CanonicalReadsBack(ts[1..], "");
      Heads(ts, lit);
      if ts[1..] != [] {
        Heads(ts[1..], "");
      }
    }
  }

  lemma {:induction false} OpenLiteralComesFirst(s: string, lit: string)
    requires lit != ""
    ensures Scan(s, lit) != [] && !Scan(s, lit)[0].Item?
    decreases |s|
  {
    if s != "" && (s[0] != '%' || Escape(s)) {
      OpenLiteralComesFirst(s[1..], lit + [s[0]]);
    }
  }

  /** The first literal of a pattern is a verbatim prefix of it, with paired percent signs. */
  lemma {:induction false} FirstLiteral(s: string, lit: string) returns (m: nat)
    requires Scan(s, lit) != [] && Scan(s, lit)[0].Literal?
    ensures m <= |s| && Scan(s, lit)[0].text == lit + s[..m]
    ensures PercentsPaired(s[..m], s[m..])
    ensures Scan(s[m..], "") == Scan(s, lit)[1..]
    ensures m < |s| ==> Scan(s[m..], "") != [] && Scan(s[m..], "")[0].Item?
    decreases |s|
  {
    if s == "" {
      m := 0;
      Empty(lit);
    } else if s[0] != '%' || Escape(s) {
      var k := FirstLiteral(s[1..], lit + [s[0]]);
      m := k + 1;
      assert s[m..] == s[1..][k..];
      FirstLiteralText(s, lit, k);
      forall i | 0 <= i < m ensures PairedAt(s[..m], s[m..], i) {
        if i > 0 {
          assert PairedAt(s[1..][..k], s[1..][k..], i - 1);
        }
      }
    } else {
      m := 0;
      var p := ItemAt(s).value;
      Empty(lit);
      assert s[0..] == s;
      FirstOfThree(lit, Item(p.name, p.fmt), Scan(s[p.len..], ""));
    }
  }

  lemma FirstLiteralText(s: string, lit: string, k: nat)
    requires k < |s|
    ensures lit + [s[0]] + s[1..][..k] == lit + s[..k + 1]
  {
  }

  lemma FirstOfThree(lit: string, t: Token, tail: seq<Token>)
    ensures lit != "" ==> (Lit(lit) + [t] + tail)[0] == Literal(lit) && (Lit(lit) + [t] + tail)[1..] == Lit("") + [t] + tail
    ensures lit == "" ==> (Lit(lit) + [t] + tail)[0] == t && (Lit(lit) + [t] + tail)[1..] == tail
  {
  }

  lemma FirstItem(s: string, name: string, fmt: string)
    requires Scan(s, "") != [] && Scan(s, "")[0] == Item(name, fmt) && s != ""  && s[0] == '%'
    ensures !Escape(s) && ItemAt(s).Some? && ItemAt(s).value.name == name && ItemAt(s).value.fmt == fmt
    ensures Scan(s[ItemAt(s).value.len..], "") == Scan(s, "")[1..]
  {
    if Escape(s) {
      OpenLiteralComesFirst(s[1..], "" + [s[0]]);
    } else if ItemAt(s).Some? {
      var p := ItemAt(s).value;
      FirstOfThree("", Item(p.name, p.fmt), Scan(s[p.len..], ""));
    }
  }

  /** What was printed after an item is what the parser goes on with, if the item had no empty group. */
  lemma ItemSplitsAtPrint(name: string, fmt: string, after: string)
    requires var s := PrintToken(Item(name, fmt)) + after;
             !Escape(s) && ItemAt(s).Some? && ItemAt(s).value.name == name && ItemAt(s).value.fmt == fmt
    ensures var s := PrintToken(Item(name, fmt)) + after; var p := ItemAt(s).value;
            if fmt == "" && EmptyGroup(p) then |after| >= 2 && s[p.len..] == after[2..]
            else s[p.len..] == after && (fmt == "" ==> EndsName(name, after))
  {
    var s := PrintToken(Item(name, fmt)) + after;
    var r := s[1..];
    var k := NameLen(r);
    assert k == |r[..k]| == |name|;
    if fmt == "" {
      assert r == name + after;
    } else {
      assert r[k + 1..] == (fmt + "}") + after;
      TailFromToken(PrintToken(Item(name, fmt)), after);
    }
  }

  lemma TailNoErrors(ts: seq<Token>)
    requires ts != [] && NoErrors(ts)
    ensures NoErrors(ts[1..])
  {
  }

  /** An item printed without a group cannot be read back with an empty one: the rest would have to print
      more than was left to read. */
  lemma NoEmptyGroupReadBack(ts: seq<Token>, s: string)
    requires NoErrors(ts) && Scan(s, "") == ts
    ensures |Print(ts)| <= |s|
  {
    ScanLoss(s, "");
  }

  lemma {:induction false} ReadsBackCanonical(ts: seq<Token>)
    requires NoErrors(ts) && Parse(Print(ts)) == ts
    ensures Canonical(ts)
    decreases |ts|
  {
    if ts != [] {
      var rest := ts[1..];
      var s := Print(ts);
      TailNoErrors(ts);
      match ts[0]
      case Literal(text) =>
        var m := FirstLiteral(s, "");
        Empty(s[..m]);
        assert m == |text|;
        TailFromToken(text, Print(rest));
        assert s[..m] == text;
        ReadsBackCanonical(rest);
        LiteralNotEmpty(s, "");
      case Item(name, fmt) =>
        FirstItem(s, name, fmt);
        var p := ItemAt(s).value;
        ItemSplitsAtPrint(name, fmt, Print(rest));
        NoEmptyGroupReadBack(rest, s[p.len..]);
        ReadsBackCanonical(rest);
        ItemParts(s);
    }
  }

  lemma {:induction false} LiteralNotEmpty(s: string, lit: string)
    requires Scan(s, lit) != [] && Scan(s, lit)[0].Literal?
    ensures Scan(s, lit)[0].text != ""
    decreases |s|
  {
    if s != "" && (s[0] != '%' || Escape(s)) {
      LiteralNotEmpty(s[1..], lit + [s[0]]);
    }
  }

  lemma ItemParts(s: string)
    requires s != "" && ItemAt(s).Some?
    ensures forall c :: c in ItemAt(s).value.name ==> NameChar(c)
    ensures '}' !in ItemAt(s).value.fmt
  {
  }

  /** The parser undoes the printer on exactly the canonical token lists. */
  lemma ParseUndoesPrintIff(ts: seq<Token>)
    requires NoErrors(ts)
    ensures Parse(Print(ts)) == ts <==> Canonical(ts)
  {
    if Canonical(ts) {
      CanonicalReadsBack(ts, "");
      if ts != [] {
        Heads(ts, "");
      }
    } else if Parse(Print(ts)) == ts {
      ReadsBackCanonical(ts);
    }
  }

  // ---- the loop ----

  lemma TuplesConcat(a: seq<Token>, b: seq<Token>)
    ensures Tuples(a + b) == Tuples(a) + Tuples(b)
  {
  }

  /** Name characters behind the percent sign at `i` up to `n`. */
  predicate NameRun(p: string, i: nat, n: nat) {
    i < n <= |p| && forall j :: i < j < n ==> NameChar(p[j])
  }

  /** A group opened at `b` and not closed before `n`. */
  predicate OpenRun(p: string, i: nat, b: nat, n: nat) {
    b < n <= |p| && NameRun(p, i, b) && p[b] == '{' && forall j :: b < j < n ==> p[j] != '}'
  }

  lemma Slices(p: string, i: nat, a: nat, b: nat)
    requires i < a <= b <= |p|
    ensures p[i..][1..][a - i - 1..] == p[a..] && p[a..][..b - a] == p[a..b]
  {
  }

  /** An item without a group ends where its name characters end. */
  lemma BareItem(p: string, i: nat, n: nat)
    requires NameRun(p, i, n) && (n < |p| ==> !NameChar(p[n]) && p[n] != '{')
    ensures ItemAt(p[i..]) == Some(Parsed(p[i + 1..n], "", n - i))
  {
    Slices(p, i, i + 1, n);
    NameLenIs(p[i + 1..], n - i - 1);
  }

  lemma GroupStart(p: string, i: nat, b: nat, k: nat)
    requires NameRun(p, i, b) && b < |p| && p[b] == '{' && k == b - i - 1
    ensures StartsGroup(p[i..], k, p[i + 1..b], p[b + 1..])
  {
    NameLenIs(p[i..][1..], k);
  }

  lemma GroupEnd(p: string, b: nat, n: nat, e: nat)
    requires e == n - b - 1 && b < n <= |p| && (forall j :: b < j < n ==> p[j] != '}') && (n == |p| || p[n] == '}')
    ensures CloseAt(p[b + 1..]) == e && p[b + 1..][..e] == p[b + 1..n]
    ensures e == |p[b + 1..]| <==> n == |p|
  {
    CloseAtIs(p[b + 1..], e);
  }

  /** An item with a group ends at the first closing brace; without one there is no item. */
  lemma GroupItem(p: string, i: nat, b: nat, n: nat)
    requires OpenRun(p, i, b, n) && (n == |p| || p[n] == '}')
    ensures ItemAt(p[i..]) == if n == |p| then None else Some(Parsed(p[i + 1..b], p[b + 1..n], n + 1 - i))
  {
    var k, e := b - i - 1, n - b - 1;
    GroupStart(p, i, b, k);
    GroupEnd(p, b, n, e);
    GroupFound(p[i..], k, p[i + 1..b], p[b + 1..], e, p[b + 1..n], n + 1 - i);
  }

  /** The inner loop: from the percent sign at `i` to the end `n` of its item. The status stays 1 when the group is
      never closed. */
  method ReadItemAt(pattern: string, i: nat) returns (status: int, str: string, fmt: string, n: nat)
    requires i < |pattern| && pattern[i] == '%'
    ensures status == 0 || status == 1
    ensures status == 0 ==> i < n <= |pattern| && ItemAt(pattern[i..]) == Some(Parsed(str, fmt, n - i))
    ensures status == 1 ==> fmt == "" && ItemAt(pattern[i..]) == None
  {
    n := i + 1;
    status, str, fmt := 0, "", "";
    var begin := 0;
    while n < |pattern|
      invariant i < n <= |pattern| && fmt == "" && (status == 0 || status == 1)
      invariant status == 0 ==> NameRun(pattern, i, n) && str == if n == |pattern| then pattern[i + 1..n] else ""
      invariant status == 1 ==> OpenRun(pattern, i, begin, n)
      invariant status == 1 && n < |pattern| ==> str == pattern[i + 1..begin]
    {
      if status == 0 && !IsAlpha(pattern[n]) && pattern[n] != '{' && pattern[n] != '}' {
        str := pattern[i + 1..n];
        break;
      }
      if status == 0 {
        if pattern[n] == '{' {
          str := pattern[i + 1..n];
          status := 1;
          begin := n;
          n := n + 1;
          continue;
        }
      } else if status == 1 {
        if pattern[n] == '}' {
          fmt := pattern[begin + 1..n];
          GroupItem(pattern, i, begin, n);
          status := 0;
          n := n + 1;
          return;
        }
      }
      n := n + 1;
      if n == |pattern| {
        if str == "" {
          str := pattern[i + 1..];
        }
      }
    }
    if status == 0 {
      BareItem(pattern, i, n);
    } else {
      GroupItem(pattern, i, begin, n);
    }
  }

  lemma TextStep(pattern: string, i: nat, nstr: string)
    requires i < |pattern| && (pattern[i] != '%' || (i + 1 < |pattern| && pattern[i + 1] == '%'))
    ensures Scan(pattern[i..], nstr) == Scan(pattern[i + 1..], nstr + [pattern[i]])
  {
    assert pattern[i..][1..] == pattern[i + 1..];
  }

  function Flush(vec: seq<(string, string, int)>, nstr: string): seq<(string, string, int)> {
    if nstr != "" then vec + [(nstr, "", 0)] else vec
  }

  lemma ScanItem(s: string, after: string, lit: string, name: string, fmt: string, len: nat)
    requires s != "" && s[0] == '%' && !Escape(s) && ItemAt(s) == Some(Parsed(name, fmt, len)) && len <= |s| && s[len..] == after
    ensures Scan(s, lit) == Lit(lit) + [Item(name, fmt)] + Scan(after, "")
  {
  }

  lemma ItemStep(vec: seq<(string, string, int)>, pattern: string, i: nat, nstr: string, str: string, fmt: string, n: nat)
    requires i < n <= |pattern| && pattern[i] == '%' && !(i + 1 < |pattern| && pattern[i + 1] == '%')
    requires ItemAt(pattern[i..]) == Some(Parsed(str, fmt, n - i))
    ensures Flush(vec, nstr) + [(str, fmt, 1)] + Tuples(Scan(pattern[n..], "")) == vec + Tuples(Scan(pattern[i..], nstr))
  {
    assert pattern[i..] != "" && pattern[i..][0] == '%' && !Escape(pattern[i..]) && pattern[i..][n - i..] == pattern[n..];
    ScanItem(pattern[i..], pattern[n..], nstr, str, fmt, n - i);
    FlushItem(vec, nstr, str, fmt, Scan(pattern[n..], ""));
  }

  lemma FlushItem(vec: seq<(string, string, int)>, nstr: string, str: string, fmt: string, tail: seq<Token>)
    ensures Flush(vec, nstr) + [(str, fmt, 1)] + Tuples(tail) == vec + Tuples(Lit(nstr) + [Item(str, fmt)] + tail)
  {
    TuplesConcat(Lit(nstr) + [Item(str, fmt)], tail);
    TuplesConcat(Lit(nstr), [Item(str, fmt)]);
    assert Flush(vec, nstr) == vec + Tuples(Lit(nstr));
    assert Tuples([Item(str, fmt)]) == [(str, fmt, 1)];
    Regroup(vec, Tuples(Lit(nstr)), [(str, fmt, 1)], Tuples(tail));
  }

  lemma ErrorStep(vec: seq<(string, string, int)>, pattern: string, i: nat, nstr: string)
    requires i < |pattern| && pattern[i] == '%' && !(i + 1 < |pattern| && pattern[i + 1] == '%')
    requires ItemAt(pattern[i..]) == None
    ensures vec + [Tuple(PatternError)] + Tuples(Scan(pattern[i + 1..], nstr)) == vec + Tuples(Scan(pattern[i..], nstr))
  {
    TuplesConcat([PatternError], Scan(pattern[i + 1..], nstr));
    assert pattern[i..][1..] == pattern[i + 1..];
  }

  lemma Regroup<T>(a: seq<T>, b: seq<T>, c: seq<T>, d: seq<T>)
    ensures a + (b + c + d) == a + b + c + d
  {
  }

  /** `format_parser`: appends the tokens of the pattern to the vector it is given. */
  method FormatParser(given: seq<(string, string, int)>, pattern: string) returns (vec: seq<(string, string, int)>)
    ensures vec == given + Tuples(Parse(pattern))
  {
    vec := given;
    var nstr := "";
    var i := 0;
    assert pattern[0..] == pattern;
    while i < |pattern|
      invariant i <= |pattern|
      invariant vec + Tuples(Scan(pattern[i..], nstr)) == given + Tuples(Parse(pattern))
    {
      if pattern[i] != '%' {
        TextStep(pattern, i, nstr);
        nstr := nstr + [pattern[i]];
        i := i + 1;
        continue;
      }
      if i + 1 < |pattern| {
        if pattern[i + 1] == '%' {
          TextStep(pattern, i, nstr);
          nstr := nstr + ['%'];
          i := i + 1;
          continue;
        }
      }
      var status, str, fmt, n := ReadItemAt(pattern, i);
      if status == 0 {
        ItemStep(vec, pattern, i, nstr, str, fmt, n);
        if nstr != "" {
          vec := vec + [(nstr, "", 0)];
          nstr := "";
        }
        vec := vec + [(str, fmt, 1)];
        i := n;
      } else {
        ErrorStep(vec, pattern, i, nstr);
        vec := vec + [("<<pattern_error>>", fmt, 0)];
        i := i + 1;
      }
    }
    if nstr != "" {
      vec := vec + [(nstr, "", 0)];
    }
  }
}
