/**
 * The dynamically typed values the application keeps in node data, attribute
 * dictionaries and query parameters, with Python's truthiness, `or`, `str()`,
 * `dict.get` and `json.dumps` (compact, with and without `ensure_ascii`, and
 * with `indent=4`).
 */
module PyJson {
  import opened Wrappers
  import opened Strings

  /** A JSON-serialisable Python value; a dict is its entries in insertion order. */
  datatype PyVal =
    | PNone
    | PBool(b: bool)
    | PInt(i: int)
    | PStr(s: string)
    | PList(items: seq<PyVal>)
    | PDict(entries: seq<(string, PyVal)>)

  /** `bool(v)`. */
  predicate Truthy(v: PyVal) {
    match v
    case PNone => false
    case PBool(b) => b
    case PInt(i) => i != 0
    case PStr(s) => s != ""
    case PList(xs) => |xs| > 0
    case PDict(es) => |es| > 0
  }

  /** Python's `a or b`: the first operand when it is truthy, else the second. */
  function Or(a: PyVal, b: PyVal): (r: PyVal)
    ensures Truthy(r) <==> Truthy(a) || Truthy(b)
    ensures Truthy(a) ==> r == a
    ensures !Truthy(a) ==> r == b
  {
    if Truthy(a) then a else b
  }

  /** `str(v)`. Lists and dicts are rendered by a placeholder that keeps their opening bracket. */
  function StrOf(v: PyVal): (r: string)
    ensures v.PStr? ==> r == v.s
    ensures !v.PStr? ==> r != "" && r[0] !in Whitespace
  {
    match v
    case PNone => "None"
    case PBool(b) => if b then "True" else "False"
    case PInt(i) => IntToString(i)
    case PStr(s) => s
    case PList(_) => "[...]"
    case PDict(_) => "{...}"
  }

  // ---------------------------------------------------------------------
  // Dictionaries with string keys

  /** Node data: what `data.get(key, default)` sees. */
  type Data = map<string, PyVal>

  /** `data.get(k, default)`. */
  function Get(d: Data, k: string, default: PyVal): (r: PyVal)
    ensures k in d ==> r == d[k]
    ensures k !in d ==> r == default
  {
    if k in d then d[k] else default
  }

  /** No key appears twice among the entries of a dict. */
  predicate DistinctKeys(es: seq<(string, PyVal)>) {
    forall i, j :: 0 <= i < j < |es| ==> es[i].0 != es[j].0
  }

  /** The keys of a dict, in insertion order. */
  function Keys(es: seq<(string, PyVal)>): (r: seq<string>)
    ensures |r| == |es| && forall i :: 0 <= i < |es| ==> r[i] == es[i].0
  {
    seq(|es|, i requires 0 <= i < |es| => es[i].0)
  }

  /** `d.get(k)` on an ordered dict. */
  function Lookup(es: seq<(string, PyVal)>, k: string): (r: Option<PyVal>)
    ensures r.None? <==> k !in Keys(es)
    ensures r.Some? ==> (k, r.value) in es
  {
    if es == [] then None
    else if es[0].0 == k then Some(es[0].1)
    else Lookup(es[1..], k)
  }

  /** `d[k] = v` on an ordered dict: replaces in place or appends at the end. */
  function DictSet(es: seq<(string, PyVal)>, k: string, v: PyVal): (r: seq<(string, PyVal)>)
    ensures k in Keys(es) ==> |r| == |es|
    ensures k !in Keys(es) ==> r == es + [(k, v)]
    ensures forall i :: 0 <= i < |es| && es[i].0 != k ==> r[i] == es[i]
    ensures k in Keys(es) ==> (k, v) in r
    ensures k in Keys(es) ==> Keys(r) == Keys(es)
  {
    if es == [] then [(k, v)]
    else if es[0].0 == k then [(k, v)] + es[1..]
    else [es[0]] + DictSet(es[1..], k, v)
  }

  /** After `d[k] = v`, `d.get(k)` is `v` and every other key reads as before. */
  lemma {:induction false} LookupDictSet(es: seq<(string, PyVal)>, k: string, v: PyVal, k2: string)
    ensures Lookup(DictSet(es, k, v), k2) == if k2 == k then Some(v) else Lookup(es, k2)
  {
    if es != [] {
      LookupDictSet(es[1..], k, v, k2);
    }
  }

  /** Setting keys keeps them distinct. */
  lemma DictSetDistinct(es: seq<(string, PyVal)>, k: string, v: PyVal)
    requires DistinctKeys(es)
    ensures DistinctKeys(DictSet(es, k, v))
  {
    var r := DictSet(es, k, v);
    if k !in Keys(es) {
      forall i, j | 0 <= i < j < |r| ensures r[i].0 != r[j].0 {
        if j == |es| {
          assert Keys(es)[i] == es[i].0;
        }
      }
    } else {
      forall i, j | 0 <= i < j < |r| ensures r[i].0 != r[j].0 {
        assert Keys(r)[i] == Keys(es)[i] && Keys(r)[j] == Keys(es)[j];
      }
    }
  }

  /** `d.update(other)`: the entries of `other` set one after the other. */
  function DictUpdate(es: seq<(string, PyVal)>, other: seq<(string, PyVal)>): seq<(string, PyVal)>
    decreases |other|
  {
    if other == [] then es else DictUpdate(DictSet(es, other[0].0, other[0].1), other[1..])
  }

  /** After `d.update(other)` a key of `other` reads as `other` gives it, any other key as before. */
  lemma {:induction false} LookupDictUpdate(es: seq<(string, PyVal)>, other: seq<(string, PyVal)>, k: string)
    requires DistinctKeys(other)
    ensures Lookup(DictUpdate(es, other), k) == if k in Keys(other) then Lookup(other, k) else Lookup(es, k)
    decreases |other|
  {
    if other != [] {
      var es' := DictSet(es, other[0].0, other[0].1);
      DistinctKeysTail(other);
      LookupDictUpdate(es', other[1..], k);
      LookupDictSet(es, other[0].0, other[0].1, k);
      KeysTail(other, k);
    }
  }

  /** Dropping the first entry keeps the keys distinct. */
  lemma DistinctKeysTail(es: seq<(string, PyVal)>)
    requires es != [] && DistinctKeys(es)
    ensures DistinctKeys(es[1..])
  {
    forall i, j | 0 <= i < j < |es[1..]| ensures es[1..][i].0 != es[1..][j].0 {
      assert es[1..][i] == es[i + 1] && es[1..][j] == es[j + 1];
    }
  }

  /** The keys of a dict are its first key followed by the keys of the rest, which do not repeat it. */
  lemma KeysTail(es: seq<(string, PyVal)>, k: string)
    requires es != [] && DistinctKeys(es)
    ensures k in Keys(es) <==> k == es[0].0 || k in Keys(es[1..])
    ensures k == es[0].0 ==> k !in Keys(es[1..])
  {
    assert Keys(es) == [es[0].0] + Keys(es[1..]);
    if k == es[0].0 {
      forall i | 0 <= i < |es[1..]| ensures Keys(es[1..])[i] != k {
        assert es[1..][i] == es[i + 1];
      }
    }
  }

  // ---------------------------------------------------------------------
  // Attribute dicts built by optional assignments

  /** `if cond: attrs[k] = v`: one optional assignment into an attribute dict. */
  function With(es: seq<(string, PyVal)>, cond: bool, k: string, v: PyVal): seq<(string, PyVal)> {
    if cond then DictSet(es, k, v) else es
  }

  /** After an optional assignment, its key reads as the assigned value and every other key as before. */
  lemma LookupWith(es: seq<(string, PyVal)>, cond: bool, k: string, v: PyVal, k2: string)
    ensures Lookup(With(es, cond, k, v), k2) == if cond && k2 == k then Some(v) else Lookup(es, k2)
  {
    if cond {
      LookupDictSet(es, k, v, k2);
    }
  }

  /** An optional assignment keeps the keys distinct. */
  lemma WithDistinct(es: seq<(string, PyVal)>, cond: bool, k: string, v: PyVal)
    requires DistinctKeys(es)
    ensures DistinctKeys(With(es, cond, k, v))
  {
    if cond {
      DictSetDistinct(es, k, v);
    }
  }

  /** After three optional assignments, a key reads as the last one that set it, else as before. */
  lemma LookupWith3(a0: seq<(string, PyVal)>, c1: bool, k1: string, v1: PyVal, c2: bool, k2: string, v2: PyVal,
                    c3: bool, k3: string, v3: PyVal, k: string)
    ensures Lookup(With(With(With(a0, c1, k1, v1), c2, k2, v2), c3, k3, v3), k)
         == if c3 && k == k3 then Some(v3)
            else if c2 && k == k2 then Some(v2)
            else if c1 && k == k1 then Some(v1)
            else Lookup(a0, k)
  {
    LookupWith(a0, c1, k1, v1, k);
    LookupWith(With(a0, c1, k1, v1), c2, k2, v2, k);
    LookupWith(With(With(a0, c1, k1, v1), c2, k2, v2), c3, k3, v3, k);
  }

  /** Three optional assignments keep the keys distinct. */
  lemma WithDistinct3(a0: seq<(string, PyVal)>, c1: bool, k1: string, v1: PyVal, c2: bool, k2: string, v2: PyVal,
                      c3: bool, k3: string, v3: PyVal)
    requires DistinctKeys(a0)
    ensures DistinctKeys(With(With(With(a0, c1, k1, v1), c2, k2, v2), c3, k3, v3))
  {
    WithDistinct(a0, c1, k1, v1);
    WithDistinct(With(a0, c1, k1, v1), c2, k2, v2);
    WithDistinct(With(With(a0, c1, k1, v1), c2, k2, v2), c3, k3, v3);
  }

  /** A dict with one entry reads that entry and nothing else. */
  lemma LookupSingle(k0: string, v0: PyVal, k: string)
    ensures Lookup([(k0, v0)], k) == if k == k0 then Some(v0) else None
    ensures DistinctKeys([(k0, v0)])
  {
  }

  /** `v if cond else None`: what `attrs.get(k)` gives after an optional assignment into a dict without `k`. */
  function IfThen(cond: bool, v: PyVal): Option<PyVal> {
    if cond then Some(v) else None
  }

  /**
   * A dict that starts with one entry and goes through three optional
   * assignments of distinct keys reads each key as its own assignment left
   * it, and a fifth key not at all.
   */
  lemma Steps3(k0: string, v0: PyVal, c1: bool, k1: string, v1: PyVal, c2: bool, k2: string, v2: PyVal,
               c3: bool, k3: string, v3: PyVal, absent: string)
    requires k0 != k1 && k0 != k2 && k0 != k3 && k1 != k2 && k1 != k3 && k2 != k3
    requires absent != k0 && absent != k1 && absent != k2 && absent != k3
    ensures var r := With(With(With([(k0, v0)], c1, k1, v1), c2, k2, v2), c3, k3, v3);
      && Lookup(r, k0) == Some(v0)
      && Lookup(r, k1) == IfThen(c1, v1)
      && Lookup(r, k2) == IfThen(c2, v2)
      && Lookup(r, k3) == IfThen(c3, v3)
      && Lookup(r, absent) == None
      && DistinctKeys(r)
  {
    var a0 := [(k0, v0)];
    LookupWith3(a0, c1, k1, v1, c2, k2, v2, c3, k3, v3, k0);
    LookupWith3(a0, c1, k1, v1, c2, k2, v2, c3, k3, v3, k1);
    LookupWith3(a0, c1, k1, v1, c2, k2, v2, c3, k3, v3, k2);
    LookupWith3(a0, c1, k1, v1, c2, k2, v2, c3, k3, v3, k3);
    LookupWith3(a0, c1, k1, v1, c2, k2, v2, c3, k3, v3, absent);
    LookupSingle(k0, v0, k0);
    LookupSingle(k0, v0, k1);
    LookupSingle(k0, v0, k2);
    LookupSingle(k0, v0, k3);
    LookupSingle(k0, v0, absent);
    WithDistinct3(a0, c1, k1, v1, c2, k2, v2, c3, k3, v3);
  }

  /** `Steps3` with a fourth optional assignment. */
  lemma Steps4(k0: string, v0: PyVal, c1: bool, k1: string, v1: PyVal, c2: bool, k2: string, v2: PyVal,
               c3: bool, k3: string, v3: PyVal, c4: bool, k4: string, v4: PyVal)
    requires k0 != k1 && k0 != k2 && k0 != k3 && k1 != k2 && k1 != k3 && k2 != k3
    requires k4 != k0 && k4 != k1 && k4 != k2 && k4 != k3
    ensures var r := With(With(With(With([(k0, v0)], c1, k1, v1), c2, k2, v2), c3, k3, v3), c4, k4, v4);
      && Lookup(r, k0) == Some(v0)
      && Lookup(r, k1) == IfThen(c1, v1)
      && Lookup(r, k2) == IfThen(c2, v2)
      && Lookup(r, k3) == IfThen(c3, v3)
      && Lookup(r, k4) == IfThen(c4, v4)
      && DistinctKeys(r)
  {
    var a3 := With(With(With([(k0, v0)], c1, k1, v1), c2, k2, v2), c3, k3, v3);
    Steps3(k0, v0, c1, k1, v1, c2, k2, v2, c3, k3, v3, k4);
    LookupWith(a3, c4, k4, v4, k0);
    LookupWith(a3, c4, k4, v4, k1);
    LookupWith(a3, c4, k4, v4, k2);
    LookupWith(a3, c4, k4, v4, k3);
    LookupWith(a3, c4, k4, v4, k4);
    WithDistinct(a3, c4, k4, v4);
  }

  /** A dict with two entries reads them and nothing else. */
  lemma LookupPair(k0: string, v0: PyVal, k1: string, v1: PyVal, k: string)
    ensures Lookup([(k0, v0), (k1, v1)], k) == if k == k0 then Some(v0) else if k == k1 then Some(v1) else None
  {
    assert [(k0, v0), (k1, v1)][1..] == [(k1, v1)];
  }

  // ---------------------------------------------------------------------
  // json.dumps, with ensure_ascii=False (the agent attributes) and with the
  // default ensure_ascii=True (the stored quiz options)

  function HexDigit(d: nat): (r: char)
    requires d < 16
    ensures '0' <= r <= '9' || 'a' <= r <= 'f'
  {
    if d < 10 then ('0' as int + d) as char else ('a' as int + d - 10) as char
  }

  /** A character `ensure_ascii` leaves as it is: printable ASCII, space to `~`. */
  predicate Printable(c: char) {
    0x20 <= c as int < 0x7f
  }

  predicate AllPrintable(s: string) {
    forall k :: 0 <= k < |s| ==> Printable(s[k])
  }

  /** `\uXXXX` for one 16-bit code unit, with four lower-case hex digits. */
  function UnitEscape(n: nat): (r: string)
    requires n < 0x10000
    ensures |r| == 6 && r[0] == '\\' && r[1] == 'u'
    ensures AllPrintable(r)
  {
    "\\u" + [HexDigit(n / 0x1000), HexDigit(n / 0x100 % 16), HexDigit(n / 16 % 16), HexDigit(n % 16)]
  }

  /**
   * How `json.dumps` writes one character inside a string. With `ascii`
   * every character beyond printable ASCII becomes `\uXXXX`, and one beyond
   * the 16-bit range the UTF-16 surrogate pair of two such escapes.
   */
  function EscapeChar(c: char, ascii: bool): (r: string)
    ensures |r| >= 1
    ensures c as int >= 0x20 && c != '"' && c != '\\' && !(ascii && c as int >= 0x7f) ==> r == [c]
    ensures forall k :: 0 <= k < |r| ==> r[k] as int >= 0x20
    ensures ascii ==> AllPrintable(r)
  {
    if c == '"' then "\\\""
    else if c == '\\' then "\\\\"
    else if c == '\n' then "\\n"
    else if c == '\r' then "\\r"
    else if c == '\t' then "\\t"
    else if c == '\U{0008}' then "\\b"
    else if c == '\U{000C}' then "\\f"
    else if c as int < 0x20 then UnitEscape(c as int)
    else if !ascii || c as int < 0x7f then [c]
    else if c as int < 0x10000 then UnitEscape(c as int)
    else UnitEscape(0xd800 + (c as int - 0x10000) / 0x400) + UnitEscape(0xdc00 + (c as int - 0x10000) % 0x400)
  }

  /** The two halves of a surrogate pair give back the character they stand for. */
  lemma SurrogatePair(c: char)
    requires c as int >= 0x10000
    ensures var e := EscapeChar(c, true);
      && |e| == 12 && e[..2] == "\\u" && e[6..8] == "\\u"
      && 0xd800 <= 0xd800 + (c as int - 0x10000) / 0x400 < 0xdc00
      && 0xdc00 <= 0xdc00 + (c as int - 0x10000) % 0x400 < 0xe000
      && ((c as int - 0x10000) / 0x400) * 0x400 + (c as int - 0x10000) % 0x400 + 0x10000 == c as int
  {
  }

  /** The escaped body of a JSON string: no control character survives, and with `ascii` nothing else beyond ASCII. */
  function EscapeAll(s: string, ascii: bool): (r: string)
    ensures forall k :: 0 <= k < |r| ==> r[k] as int >= 0x20
    ensures ascii ==> AllPrintable(r)
  {
    if s == [] then "" else EscapeChar(s[0], ascii) + EscapeAll(s[1..], ascii)
  }

  /** On printable ASCII text the two settings of `ensure_ascii` write the same. */
  lemma {:induction false} EscapeAllPrintable(s: string)
    requires AllPrintable(s)
    ensures EscapeAll(s, true) == EscapeAll(s, false)
  {
    if s != [] {
      EscapeAllPrintable(s[1..]);
    }
  }

  function QuoteJson(s: string, ascii: bool): (r: string)
    ensures ascii ==> AllPrintable(r)
  {
    "\"" + EscapeAll(s, ascii) + "\""
  }

  /** `json.dumps(v, ensure_ascii=ascii)` with the default separators `", "` and `": "`. */
  function Encode(v: PyVal, ascii: bool): (r: string)
    ensures |r| > 0
  {
    match v
    case PNone => "null"
    case PBool(b) => if b then "true" else "false"
    case PInt(i) => IntToString(i)
    case PStr(s) => QuoteJson(s, ascii)
    case PList(xs) =>
      "[" + Join(seq(|xs|, k requires 0 <= k < |xs| => Encode(xs[k], ascii)), ", ") + "]"
    case PDict(es) =>
      "{" + Join(seq(|es|, k requires 0 <= k < |es| => QuoteJson(es[k].0, ascii) + ": " + Encode(es[k].1, ascii)), ", ") + "}"
  }

  /** `json.dumps(v, ensure_ascii=False)`. */
  function Dumps(v: PyVal): (r: string)
    ensures |r| > 0
  {
    Encode(v, false)
  }

  /** `json.dumps(v)`, whose default `ensure_ascii=True` escapes everything beyond ASCII. */
  function DumpsAscii(v: PyVal): (r: string)
    ensures |r| > 0
    ensures AllPrintable(r)
  {
    DumpsAsciiPrintable(v);
    Encode(v, true)
  }

  lemma {:induction false} JoinPrintable(parts: seq<string>, sep: string)
    requires AllPrintable(sep)
    requires forall k :: 0 <= k < |parts| ==> AllPrintable(parts[k])
    ensures AllPrintable(Join(parts, sep))
  {
    if |parts| > 1 {
      JoinPrintable(parts[1..], sep);
    }
  }

  lemma IntPrintable(i: int)
    ensures AllPrintable(IntToString(i))
  {
    var d := NatToString(if i < 0 then -i else i);
    assert forall k :: 0 <= k < |d| ==> IsDigit(d[k]);
  }

  /** Every character `json.dumps(v)` writes is printable ASCII. */
  lemma {:induction false} DumpsAsciiPrintable(v: PyVal)
    ensures AllPrintable(Encode(v, true))
    decreases v
  {
    match v
    case PInt(i) =>
      IntPrintable(i);
    case PList(xs) =>
      var parts := seq(|xs|, k requires 0 <= k < |xs| => Encode(xs[k], true));
      forall k | 0 <= k < |xs| ensures AllPrintable(parts[k]) {
        DumpsAsciiPrintable(xs[k]);
      }
      JoinPrintable(parts, ", ");
    case PDict(es) =>
      var parts := seq(|es|, k requires 0 <= k < |es| => QuoteJson(es[k].0, true) + ": " + Encode(es[k].1, true));
      forall k | 0 <= k < |es| ensures AllPrintable(parts[k]) {
        DumpsAsciiPrintable(es[k].1);
      }
      JoinPrintable(parts, ", ");
    case _ =>
  }

  /** A value whose texts are all printable ASCII is written the same with and without `ensure_ascii`. */
  lemma {:induction false} DumpsAsciiAgrees(v: PyVal)
    requires PrintableTexts(v)
    ensures DumpsAscii(v) == Dumps(v)
    decreases v
  {
    match v
    case PStr(s) =>
      EscapeAllPrintable(s);
    case PList(xs) =>
      forall k | 0 <= k < |xs| ensures Encode(xs[k], true) == Encode(xs[k], false) {
        DumpsAsciiAgrees(xs[k]);
      }
      assert seq(|xs|, k requires 0 <= k < |xs| => Encode(xs[k], true))
          == seq(|xs|, k requires 0 <= k < |xs| => Encode(xs[k], false));
    case PDict(es) =>
      forall k | 0 <= k < |es|
        ensures QuoteJson(es[k].0, true) + ": " + Encode(es[k].1, true) == QuoteJson(es[k].0, false) + ": " + Encode(es[k].1, false)
      {
        EscapeAllPrintable(es[k].0);
        DumpsAsciiAgrees(es[k].1);
      }
      assert seq(|es|, k requires 0 <= k < |es| => QuoteJson(es[k].0, true) + ": " + Encode(es[k].1, true))
          == seq(|es|, k requires 0 <= k < |es| => QuoteJson(es[k].0, false) + ": " + Encode(es[k].1, false));
    case _ =>
  }

  /** Every string inside a value, dict keys included, is printable ASCII. */
  predicate PrintableTexts(v: PyVal) {
    match v
    case PStr(s) => AllPrintable(s)
    case PList(xs) => forall k :: 0 <= k < |xs| ==> PrintableTexts(xs[k])
    case PDict(es) => forall k :: 0 <= k < |es| ==> AllPrintable(es[k].0) && PrintableTexts(es[k].1)
    case _ => true
  }

  /** The indentation `json.dumps` writes before an item at nesting depth `level` with `indent=4`. */
  function Indent(level: nat): string {
    seq(4 * level, _ => ' ')
  }

  /** `json.dumps(v, indent=4, ensure_ascii=False)` for a value at nesting depth `level`. */
  function DumpsIndented(v: PyVal, level: nat): (r: string)
    ensures |r| > 0
  {
    match v
    case PList(xs) =>
      if xs == [] then "[]"
      else
        "[\n" + Join(seq(|xs|, k requires 0 <= k < |xs| => Indent(level + 1) + DumpsIndented(xs[k], level + 1)), ",\n")
        + "\n" + Indent(level) + "]"
    case PDict(es) =>
      if es == [] then "{}"
      else
        "{\n" + Join(seq(|es|, k requires 0 <= k < |es| =>
                       Indent(level + 1) + QuoteJson(es[k].0, false) + ": " + DumpsIndented(es[k].1, level + 1)), ",\n")
        + "\n" + Indent(level) + "}"
    case _ => Dumps(v)
  }
}
