/**
 * `JSON.stringify(selectedProducts)`, the text the routine request embeds, and a reader
 * for that text: reading back what was written gives the selection, in store order.
 */
module SelectionJson {
  import opened Wrappers
  import opened Selection

  function HexDigit(d: nat): char
    requires d < 16
  {
    if d < 10 then ('0' as int + d) as char else ('a' as int + d - 10) as char
  }

  /** One character as `JSON.stringify` writes it inside a string literal. */
  function EscapeChar(c: char): string {
    if c == '"' then "\\\""
    else if c == '\\' then "\\\\"
    else if c == '\U{8}' then "\\b"
    else if c == '\t' then "\\t"
    else if c == '\n' then "\\n"
    else if c == '\U{C}' then "\\f"
    else if c == '\r' then "\\r"
    else if c < ' ' then "\\u00" + [HexDigit(c as int / 16), HexDigit(c as int % 16)]
    else [c]
  }

  function EscapeString(s: string): string {
    if s == [] then [] else EscapeChar(s[0]) + EscapeString(s[1..])
  }

  /** A JSON string literal. */
  function Quote(s: string): string {
    "\"" + EscapeString(s) + "\""
  }

  /** `{"id":…,"name":…}`: the keys in the order the store's objects were built. */
  function ProductJson(p: SelectedProduct): string {
    "{\"id\":" + Quote(p.id) + ",\"name\":" + Quote(p.name) + "}"
  }

  function ItemsJson(ps: seq<SelectedProduct>): string {
    if ps == [] then ""
    else if |ps| == 1 then ProductJson(ps[0])
    else ProductJson(ps[0]) + "," + ItemsJson(ps[1..])
  }

  /** `JSON.stringify(ps)`: no white space between tokens. */
  function Stringify(ps: seq<SelectedProduct>): string {
    "[" + ItemsJson(ps) + "]"
  }

  // Reading the text back.

  function HexValue(c: char): (r: Option<nat>)
    ensures r.Some? ==> r.value < 16
  {
    if '0' <= c <= '9' then Some(c as int - '0' as int)
    else if 'a' <= c <= 'f' then Some(c as int - 'a' as int + 10)
    else if 'A' <= c <= 'F' then Some(c as int - 'A' as int + 10)
    else None
  }

  function Hex4(s: string): (r: Option<nat>)
    requires |s| == 4
    ensures r.Some? ==> r.value < 0x1_0000
  {
    var d0 :- HexValue(s[0]);
    var d1 :- HexValue(s[1]);
    var d2 :- HexValue(s[2]);
    var d3 :- HexValue(s[3]);
    Some(((d0 * 16 + d1) * 16 + d2) * 16 + d3)
  }

  /**
   * One character of a string literal's body, plain or escaped; an unescaped quote
   * or control character is not one.
   */
  function ReadChar(s: string): (r: Option<(char, string)>)
    ensures r.Some? ==> |r.value.1| < |s|
  {
    if s == [] || s[0] == '"' then None
    else if s[0] == '\\' then
      if |s| < 2 then None
      else if s[1] == '"' then Some(('"', s[2..]))
      else if s[1] == '\\' then Some(('\\', s[2..]))
      else if s[1] == '/' then Some(('/', s[2..]))
      else if s[1] == 'b' then Some(('\U{8}', s[2..]))
      else if s[1] == 't' then Some(('\t', s[2..]))
      else if s[1] == 'n' then Some(('\n', s[2..]))
      else if s[1] == 'f' then Some(('\U{C}', s[2..]))
      else if s[1] == 'r' then Some(('\r', s[2..]))
      else if s[1] == 'u' && |s| >= 6 then
        var n :- Hex4(s[2..6]);
        if n < 0xD800 || 0xDFFF < n then Some((n as char, s[6..])) else None
      else None
    else if s[0] < ' ' then None
    else Some((s[0], s[1..]))
  }

  /** The body of a string literal up to its closing quote, and what follows the quote. */
  function ReadStringBody(s: string): (r: Option<(string, string)>)
    ensures r.Some? ==> |r.value.1| < |s|
    decreases |s|
  {
    if s == [] then None
    else if s[0] == '"' then Some(([], s[1..]))
    else
      var (c, rest) :- ReadChar(s);
      var (t, rest') :- ReadStringBody(rest);
      Some(([c] + t, rest'))
  }

  function ReadString(s: string): (r: Option<(string, string)>)
    ensures r.Some? ==> |r.value.1| < |s|
  {
    if s != [] && s[0] == '"' then ReadStringBody(s[1..]) else None
  }

  /** Consumes the fixed text `lit`. */
  function ReadLiteral(lit: string, s: string): (r: Option<string>)
    ensures r.Some? ==> |r.value| == |s| - |lit|
  {
    if |lit| <= |s| && s[..|lit|] == lit then Some(s[|lit|..]) else None
  }

  function ReadProduct(s: string): (r: Option<(SelectedProduct, string)>)
    ensures r.Some? ==> |r.value.1| < |s|
  {
    var s1 :- ReadLiteral("{\"id\":", s);
    var (id, s2) :- ReadString(s1);
    var s3 :- ReadLiteral(",\"name\":", s2);
    var (name, s4) :- ReadString(s3);
    var s5 :- ReadLiteral("}", s4);
    Some((SelectedProduct(id, name), s5))
  }

  /** One or more comma-separated products and the closing bracket. */
  function ReadItems(s: string): Option<(seq<SelectedProduct>, string)>
    decreases |s|
  {
    var (p, rest) :- ReadProduct(s);
    if rest != [] && rest[0] == ',' then
      var (ps, rest') :- ReadItems(rest[1..]);
      Some(([p] + ps, rest'))
    else if rest != [] && rest[0] == ']' then Some(([p], rest[1..]))
    else None
  }

  /** The whole text must be one array of products. */
  function ReadSelection(s: string): Option<seq<SelectedProduct>> {
    if s == "[]" then Some([])
    else if s != [] && s[0] == '[' then
      var (ps, rest) :- ReadItems(s[1..]);
      if rest == [] then Some(ps) else None
    else None
  }

  // The round trip.

  lemma EscapeCharReads(c: char, tail: string)
    ensures EscapeChar(c) != [] && EscapeChar(c)[0] != '"'
    ensures ReadChar(EscapeChar(c) + tail) == Some((c, tail))
  {
    var e := EscapeChar(c);
    if c < ' ' && c != '\U{8}' && c != '\t' && c != '\n' && c != '\U{C}' && c != '\r' {
      var hi, lo := c as int / 16, c as int % 16;
      assert (e + tail)[2..6] == ['0', '0', HexDigit(hi), HexDigit(lo)];
      assert Hex4((e + tail)[2..6]) == Some(hi * 16 + lo);
      assert (e + tail)[6..] == tail;
    } else {
      assert (e + tail)[|e|..] == tail;
    }
  }

  lemma {:induction false} EscapeStringReads(s: string, tail: string)
    ensures ReadStringBody(EscapeString(s) + "\"" + tail) == Some((s, tail))
  {
    if s == [] {
      assert EscapeString(s) + "\"" + tail == "\"" + tail;
    } else {
      var e := EscapeChar(s[0]);
      var rest := EscapeString(s[1..]) + "\"" + tail;
      assert EscapeString(s) + "\"" + tail == e + rest;
      EscapeCharReads(s[0], rest);
      EscapeStringReads(s[1..], tail);
      assert [s[0]] + s[1..] == s;
    }
  }

  lemma QuoteReads(s: string, tail: string)
    ensures ReadString(Quote(s) + tail) == Some((s, tail))
  {
    assert (Quote(s) + tail)[1..] == EscapeString(s) + "\"" + tail;
    EscapeStringReads(s, tail);
  }

  lemma LiteralReads(lit: string, tail: string)
    ensures ReadLiteral(lit, lit + tail) == Some(tail)
  {
    assert (lit + tail)[..|lit|] == lit;
    assert (lit + tail)[|lit|..] == tail;
  }

  lemma ProductReads(p: SelectedProduct, tail: string)
    ensures ReadProduct(ProductJson(p) + tail) == Some((p, tail))
  {
    var t4 := "}" + tail;
    var t3 := Quote(p.name) + t4;
    var t2 := ",\"name\":" + t3;
    var t1 := Quote(p.id) + t2;
    assert ProductJson(p) + tail == "{\"id\":" + t1 by {
      assert ProductJson(p) == "{\"id\":" + Quote(p.id) + ",\"name\":" + Quote(p.name) + "}";
    }
    assert ReadLiteral("{\"id\":", "{\"id\":" + t1) == Some(t1) by { LiteralReads("{\"id\":", t1); }
    assert ReadString(t1) == Some((p.id, t2)) by { QuoteReads(p.id, t2); }
    assert ReadLiteral(",\"name\":", t2) == Some(t3) by { LiteralReads(",\"name\":", t3); }
    assert ReadString(t3) == Some((p.name, t4)) by { QuoteReads(p.name, t4); }
    assert ReadLiteral("}", t4) == Some(tail) by { LiteralReads("}", tail); }
  }

  lemma {:induction false} ItemsRead(ps: seq<SelectedProduct>, tail: string)
    requires ps != []
    ensures ReadItems(ItemsJson(ps) + "]" + tail) == Some((ps, tail))
    decreases |ps|
  {
    if |ps| == 1 {
      LastItemReads(ps[0], tail);
      assert [ps[0]] == ps;
    } else {
      var more := ItemsJson(ps[1..]) + "]" + tail;
      ItemsJsonSplits(ps, tail);
      ItemsRead(ps[1..], tail);
      ItemReads(ps[0], more);
      assert [ps[0]] + ps[1..] == ps;
    }
  }

  lemma ItemsJsonSplits(ps: seq<SelectedProduct>, tail: string)
    requires |ps| > 1
    ensures ItemsJson(ps) + "]" + tail == ProductJson(ps[0]) + ("," + (ItemsJson(ps[1..]) + "]" + tail))
  {
    assert ItemsJson(ps) == ProductJson(ps[0]) + "," + ItemsJson(ps[1..]);
    Regroup(ProductJson(ps[0]), ItemsJson(ps[1..]), tail);
  }

  lemma Regroup(a: string, b: string, tail: string)
    ensures a + "," + b + "]" + tail == a + ("," + (b + "]" + tail))
  {
  }

  lemma LastItemReads(p: SelectedProduct, tail: string)
    ensures ReadItems(ProductJson(p) + "]" + tail) == Some(([p], tail))
  {
    assert ProductJson(p) + "]" + tail == ProductJson(p) + ("]" + tail);
    ProductReads(p, "]" + tail);
  }

  lemma ItemReads(p: SelectedProduct, more: string)
    ensures ReadItems(ProductJson(p) + ("," + more))
         == match ReadItems(more)
            case None => None
            case Some((ps, rest)) => Some(([p] + ps, rest))
  {
    ProductReads(p, "," + more);
    assert ("," + more)[1..] == more;
  }

  /** Reading back the text `JSON.stringify` wrote gives the selection, in order. */
  lemma StringifyRoundTrip(ps: seq<SelectedProduct>)
    ensures ReadSelection(Stringify(ps)) == Some(ps)
  {
    if ps != [] {
      var body := ItemsJson(ps) + "]";
      ItemsJsonOpens(ps);
      ItemsRead(ps, []);
      assert body + [] == body;
      assert Stringify(ps) == "[" + body;
      BracketedItemsRead(body, ps);
    }
  }

  lemma BracketedItemsRead(body: string, ps: seq<SelectedProduct>)
    requires body != [] && body[0] == '{'
    requires ReadItems(body) == Some((ps, []))
    ensures ReadSelection("[" + body) == Some(ps)
  {
    assert ("[" + body)[1..] == body;
    assert ("[" + body)[1] == '{' != "[]"[1];
  }

  lemma ItemsJsonOpens(ps: seq<SelectedProduct>)
    requires ps != []
    ensures ItemsJson(ps) != [] && ItemsJson(ps)[0] == '{'
  {
    assert ProductJson(ps[0])[0] == '{';
    if |ps| > 1 {
      assert ItemsJson(ps) == ProductJson(ps[0]) + "," + ItemsJson(ps[1..]);
    }
  }

  /** Distinct selections are written as distinct texts. */
  lemma StringifyInjective(ps: seq<SelectedProduct>, qs: seq<SelectedProduct>)
    requires Stringify(ps) == Stringify(qs)
    ensures ps == qs
  {
    StringifyRoundTrip(ps);
    StringifyRoundTrip(qs);
  }
}
